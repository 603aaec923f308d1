/** The donation page's form (components/donate/donation-form.tsx): the
    card-number, expiry, CVV and ZIP sanitisers applied on every keystroke,
    and the submit checks. */
module DonationForm {
  import opened Types
  import Text
  import AmountSelection

  function Min(a: int, b: int): int {
    if a < b then a else b
  }

  /** `value.replace(/\s+/g, "").replace(/[^0-9]/gi, "")` is the digits of
      `value`; `v.match(/\d{4,16}/g)?.[0] || ""` on a text of digits is its
      first sixteen digits, or nothing when there are fewer than four. */
  function CardDigits(value: string): (m: string)
    ensures m == [] || 4 <= |m| <= 16
    ensures forall i :: 0 <= i < |m| ==> Text.IsDigit(m[i])
    ensures |Text.DigitsOnly(value)| >= 4 ==> m == Text.Take(Text.DigitsOnly(value), 16)
    ensures |Text.DigitsOnly(value)| < 4 ==> m == []
  {
    var v := Text.DigitsOnly(value);
    if |v| < 4 then [] else Text.Take(v, 16)
  }

  /** The four-character pieces `match.substring(i, i + 4)` for i = 0, 4, ... */
  function Chunks(m: string): (c: seq<string>)
    ensures c == [] <==> m == []
    decreases |m|
  {
    if m == [] then [] else if |m| <= 4 then [m] else [m[..4]] + Chunks(m[4..])
  }

  lemma {:induction false} ChunksStep(s: string)
    requires s != []
    ensures Chunks(s) == [s[..Min(4, |s|)]] + Chunks(s[Min(4, |s|)..])
  {
    if |s| <= 4 {
      assert s[..|s|] == s;
      assert s[|s|..] == [];
    }
  }

  /** What formatCardNumber returns (components/donate/donation-form.tsx:96-109):
      the groups joined by single spaces, or the input itself when there
      are no groups. */
  function CardNumberText(value: string): string {
    var m := CardDigits(value);
    if m == [] then value else Text.Join(Chunks(m), " ")
  }

  /** formatCardNumber, with its loop over the digits. */
  method FormatCardNumber(value: string) returns (r: string)
    ensures r == CardNumberText(value)
  {
    var m := CardDigits(value);
    var parts: seq<string> := [];
    var i := 0;
    while i < |m|
      invariant 0 <= i
      invariant parts + Chunks(m[Min(i, |m|)..]) == Chunks(m)
      decreases |m| - i
    {
      var s := m[i..];
      ChunksStep(s);
      assert s[..Min(4, |s|)] == m[i..Min(i + 4, |m|)];
      assert s[Min(4, |s|)..] == m[Min(i + 4, |m|)..];
      parts := parts + [m[i..Min(i + 4, |m|)]];
      i := i + 4;
    }
    assert m[Min(i, |m|)..] == [];
    assert parts + [] == parts;
    assert parts == Chunks(m);
    if |parts| > 0 {
      r := Text.Join(parts, " ");
    } else {
      r := value;
    }
  }

  /** Joining the groups puts one space after the first group. */
  lemma {:induction false} JoinChunksStep(m: string)
    requires |m| > 4
    ensures Text.Join(Chunks(m), " ") == m[..4] + " " + Text.Join(Chunks(m[4..]), " ")
  {
    var c := Chunks(m);
    assert c == [m[..4]] + Chunks(m[4..]);
    assert |c| >= 2 && c[0] == m[..4] && c[1..] == Chunks(m[4..]);
  }

  /** A separator contributes no digits. */
  lemma {:induction false} DigitsAcrossSeparator(head: string, sep: string, rest: string)
    requires forall i :: 0 <= i < |head| ==> Text.IsDigit(head[i])
    requires |sep| == 1 && !Text.IsDigit(sep[0])
    ensures Text.DigitsOnly(head + sep + rest) == head + Text.DigitsOnly(rest)
  {
    var tail := sep + rest;
    assert head + sep + rest == head + tail;
    Text.DigitsOnlyAppend(head, tail);
    assert Text.DigitsOnly(head) == head;
    assert tail != [] && tail[0] == sep[0] && tail[1..] == rest;
    assert Text.DigitsOnly(tail) == Text.DigitsOnly(rest);
  }

  /** The grouped text: the digits with a space after every fourth one but
      the last, so its length is the digit count plus the gaps. */
  lemma {:induction false} GroupedShape(m: string)
    requires m != [] && forall i :: 0 <= i < |m| ==> Text.IsDigit(m[i])
    ensures var g := Text.Join(Chunks(m), " ");
            |g| == |m| + (|m| - 1) / 4
            && Text.DigitsOnly(g) == m
            && (forall i :: 0 <= i < |g| ==> Text.IsDigit(g[i]) || g[i] == ' ')
    decreases |m|
  {
    if |m| > 4 {
      var rest := Text.Join(Chunks(m[4..]), " ");
      GroupedShape(m[4..]);
      JoinChunksStep(m);
      DigitsAcrossSeparator(m[..4], " ", rest);
      assert m[..4] + m[4..] == m;
      var g := m[..4] + " " + rest;
      forall i | 0 <= i < |g|
        ensures Text.IsDigit(g[i]) || g[i] == ' '
      {
        if i >= 5 {
          assert g[i] == rest[i - 5];
        }
      }
    }
  }

  /** Fewer than four digits leave the input as typed; otherwise the result
      holds the first sixteen digits in groups of four and is at most 19
      characters, the field's maxLength. */
  lemma {:induction false} CardNumberShape(value: string)
    ensures |Text.DigitsOnly(value)| < 4 ==> CardNumberText(value) == value
    ensures |Text.DigitsOnly(value)| >= 4 ==>
              var r := CardNumberText(value);
              |r| <= 19 && Text.DigitsOnly(r) == Text.Take(Text.DigitsOnly(value), 16)
              && forall i :: 0 <= i < |r| ==> Text.IsDigit(r[i]) || r[i] == ' '
  {
    if |Text.DigitsOnly(value)| >= 4 {
      GroupedShape(CardDigits(value));
    }
  }

  /** Formatting a formatted card number changes nothing. */
  lemma {:induction false} CardNumberIdempotent(value: string)
    ensures CardNumberText(CardNumberText(value)) == CardNumberText(value)
  {
    var m := CardDigits(value);
    if m != [] {
      GroupedShape(m);
      var r := CardNumberText(value);
      assert Text.DigitsOnly(r) == m;
      assert Text.Take(m, 16) == m;
      assert CardDigits(r) == m;
    }
  }

  /** formatExpiryDate (components/donate/donation-form.tsx:111-117). */
  function ExpiryText(value: string): string {
    var v := Text.DigitsOnly(value);
    if |v| >= 2 then v[..2] + "/" + Text.Take(v[2..], 2) else v
  }

  /** At most "MM/YY": five characters, the first four digits typed, and a
      "/" after the month once two digits are there. */
  lemma {:induction false} ExpiryShape(value: string)
    ensures var r := ExpiryText(value);
            |r| <= 5 && Text.DigitsOnly(r) == Text.Take(Text.DigitsOnly(value), 4)
            && (|Text.DigitsOnly(value)| >= 2 <==> |r| >= 3 && r[2] == '/')
  {
    var v := Text.DigitsOnly(value);
    if |v| >= 2 {
      var t := Text.Take(v[2..], 2);
      assert forall i :: 0 <= i < 2 ==> Text.IsDigit(v[..2][i]);
      DigitsAcrossSeparator(v[..2], "/", t);
      assert v[..2] + t == Text.Take(v, 4);
    }
  }

  lemma {:induction false} ExpiryIdempotent(value: string)
    ensures ExpiryText(ExpiryText(value)) == ExpiryText(value)
  {
    ExpiryShape(value);
    var v := Text.DigitsOnly(value);
    var w := Text.Take(v, 4);
    if |v| >= 2 {
      assert w[..2] == v[..2];
      assert Text.Take(w[2..], 2) == Text.Take(v[2..], 2);
    }
  }

  /** `value.replace(/\D/g, "").slice(0, n)`: the CVV field keeps 4 digits
      and the ZIP field 5 (components/donate/donation-form.tsx:404, 466). */
  function DigitsCapped(value: string, n: nat): (r: string)
    ensures |r| <= n && forall i :: 0 <= i < |r| ==> Text.IsDigit(r[i])
    ensures r == Text.Take(Text.DigitsOnly(value), n)
  {
    Text.Take(Text.DigitsOnly(value), n)
  }

  function Cvv(value: string): string { DigitsCapped(value, 4) }
  function Zip(value: string): string { DigitsCapped(value, 5) }

  /** Filtering a filtered field changes nothing. */
  lemma {:induction false} DigitsCappedIdempotent(value: string, n: nat)
    ensures DigitsCapped(DigitsCapped(value, n), n) == DigitsCapped(value, n)
  {
  }

  /** What a submit does (components/donate/donation-form.tsx:119-153): the
      first failed check stops it. The payment itself is simulated by the
      page, which always thanks the donor. */
  datatype Outcome = Rejected(message: string) | ToRegister | Donated(amount: real)

  function SubmitOutcome(total: real, isDedicatedToStudent: bool, studentName: string, rememberCard: bool): (o: Outcome)
    ensures o.Donated? <==> total > 0.0 && !(isDedicatedToStudent && Text.IsBlank(studentName)) && !rememberCard
    ensures o.Donated? ==> o.amount == total
    ensures total <= 0.0 ==> o == Rejected("Please select or enter a donation amount")
    ensures total > 0.0 && isDedicatedToStudent && Text.IsBlank(studentName) ==> o == Rejected("Please enter the student's name")
    ensures o == ToRegister <==> total > 0.0 && !(isDedicatedToStudent && Text.IsBlank(studentName)) && rememberCard
  {
    if total <= 0.0 then Rejected("Please select or enter a donation amount")
    else if isDedicatedToStudent && Text.IsBlank(studentName) then Rejected("Please enter the student's name")
    else if rememberCard then ToRegister
    else Donated(total)
  }

  /** The submit button is disabled while submitting or with no amount
      (components/donate/donation-form.tsx:527); an enabled button means
      the amount check passes. */
  predicate SubmitDisabled(isSubmitting: bool, total: real) {
    isSubmitting || total <= 0.0
  }

  lemma {:induction false} EnabledPassesAmountCheck(total: real, isDedicatedToStudent: bool, studentName: string, rememberCard: bool)
    requires !SubmitDisabled(false, total)
    ensures SubmitOutcome(total, isDedicatedToStudent, studentName, rememberCard) != Rejected("Please select or enter a donation amount")
  {
  }

  /** The billing fields the form starts with
      (components/donate/donation-form.tsx:59-71), all empty. */
  function BillingFields(): seq<string> {
    ["firstName", "lastName", "email", "cardType", "cardNumber", "expiryDate", "cvv",
     "billingAddress", "city", "state", "zipCode"]
  }

  class DonationFormState {
    var isSubmitting: bool
    var isDedicatedToStudent: bool
    var studentName: string
    var rememberCard: bool
    var formData: map<string, string>
    var outcome: Option<Outcome>
    const amount: AmountSelection.AmountState

    constructor ()
      ensures fresh(amount) && amount.Total() == 0.0
      ensures !isSubmitting && !isDedicatedToStudent && studentName == "" && !rememberCard && outcome.None?
      ensures formData.Keys == (set f | f in BillingFields()) && forall k :: k in formData ==> formData[k] == ""
    {
      isSubmitting, isDedicatedToStudent, studentName, rememberCard := false, false, "", false;
      formData := map f | f in BillingFields() :: "";
      outcome := None;
      amount := new AmountSelection.AmountState();
    }

    /** handleInputChange (components/donate/donation-form.tsx:92-94): one
        field replaced, the others kept. */
    method HandleInputChange(field: string, value: string)
      modifies this
      ensures formData == old(formData)[field := value]
      ensures isSubmitting == old(isSubmitting) && outcome == old(outcome)
              && isDedicatedToStudent == old(isDedicatedToStudent) && studentName == old(studentName)
              && rememberCard == old(rememberCard)
    {
      formData := formData[field := value];
    }

    /** The card-number input (components/donate/donation-form.tsx:379):
        the stored text is the formatted input. */
    method OnCardNumberInput(value: string)
      modifies this
      ensures formData == old(formData)["cardNumber" := CardNumberText(value)]
      ensures isSubmitting == old(isSubmitting) && outcome == old(outcome)
              && isDedicatedToStudent == old(isDedicatedToStudent) && studentName == old(studentName)
              && rememberCard == old(rememberCard)
    {
      var formatted := FormatCardNumber(value);
      HandleInputChange("cardNumber", formatted);
    }

    /** The expiry, CVV and ZIP inputs
        (components/donate/donation-form.tsx:393, 404, 466). */
    method OnExpiryInput(value: string)
      modifies this
      ensures formData == old(formData)["expiryDate" := ExpiryText(value)]
      ensures isSubmitting == old(isSubmitting) && outcome == old(outcome)
              && isDedicatedToStudent == old(isDedicatedToStudent) && studentName == old(studentName)
              && rememberCard == old(rememberCard)
    {
      HandleInputChange("expiryDate", ExpiryText(value));
    }

    method OnCvvInput(value: string)
      modifies this
      ensures formData == old(formData)["cvv" := Cvv(value)]
      ensures isSubmitting == old(isSubmitting) && outcome == old(outcome)
              && isDedicatedToStudent == old(isDedicatedToStudent) && studentName == old(studentName)
              && rememberCard == old(rememberCard)
    {
      HandleInputChange("cvv", Cvv(value));
    }

    method OnZipInput(value: string)
      modifies this
      ensures formData == old(formData)["zipCode" := Zip(value)]
      ensures isSubmitting == old(isSubmitting) && outcome == old(outcome)
              && isDedicatedToStudent == old(isDedicatedToStudent) && studentName == old(studentName)
              && rememberCard == old(rememberCard)
    {
      HandleInputChange("zipCode", Zip(value));
    }

    /** handleSubmit (components/donate/donation-form.tsx:119-153). The
        payment is a simulated two-second wait that always succeeds, so the
        page clears the submit flag it set; a rejected submit never sets it. */
    method HandleSubmit()
      modifies this
      ensures outcome == Some(SubmitOutcome(amount.Total(), isDedicatedToStudent, studentName, rememberCard))
      ensures outcome.value.Donated? ==> !isSubmitting
      ensures !outcome.value.Donated? ==> isSubmitting == old(isSubmitting)
      ensures formData == old(formData) && isDedicatedToStudent == old(isDedicatedToStudent)
              && studentName == old(studentName) && rememberCard == old(rememberCard)
    {
      var total := amount.Total();
      var o := SubmitOutcome(total, isDedicatedToStudent, studentName, rememberCard);
      if o.Donated? {
        // set for the wait, cleared in the `finally`
        isSubmitting := false;
      }
      outcome := Some(o);
    }
  }
}
