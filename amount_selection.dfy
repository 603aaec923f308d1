/** The amount picker shared, line for line, by the donation form
    (components/donate/donation-form.tsx:46-48, 77-90) and the sponsorship
    form (components/sponsor/sponsorship-form.tsx:22-24, 42-55): four preset
    buttons and an "Other Amount" box, never both chosen at once. */
module AmountSelection {
  import opened Types
  import Numbers

  /** PRESET_AMOUNTS (components/donate/donation-form.tsx:19-24,
      components/sponsor/sponsorship-form.tsx:11-16). */
  function Presets(): (p: seq<real>)
    ensures forall i :: 0 <= i < |p| ==> p[i] >= 1.0
  {
    [50.0, 150.0, 200.0, 250.0]
  }

  /** `isCustom ? (parseFloat(customAmount) || 0) : (selectedAmount || 0)`. */
  function TotalOf(selectedAmount: Option<real>, customAmount: string, isCustom: bool): (t: real)
    ensures !isCustom && selectedAmount.None? ==> t == 0.0
    ensures isCustom && Numbers.ParseFloat(customAmount).None? ==> t == 0.0
    ensures isCustom ==> t == Numbers.ParseFloat(customAmount).GetOr(0.0)
    ensures !isCustom ==> t == selectedAmount.GetOr(0.0)
  {
    if isCustom then Numbers.ParseFloat(customAmount).GetOr(0.0) else selectedAmount.GetOr(0.0)
  }

  class AmountState {
    var selectedAmount: Option<real>
    var customAmount: string
    var isCustom: bool

    /** A preset and the custom box are never chosen together. */
    predicate Exclusive()
      reads this
    {
      !(isCustom && selectedAmount.Some?)
    }

    function Total(): real
      reads this
    {
      TotalOf(selectedAmount, customAmount, isCustom)
    }

    constructor ()
      ensures selectedAmount.None? && customAmount == "" && !isCustom
      ensures Exclusive() && Total() == 0.0
    {
      selectedAmount, customAmount, isCustom := None, "", false;
    }

    /** handleAmountSelect: the preset, with the custom box cleared. */
    method SelectPreset(amount: real)
      modifies this
      ensures selectedAmount == Some(amount) && !isCustom && customAmount == ""
      ensures Exclusive() && Total() == amount
    {
      selectedAmount, isCustom, customAmount := Some(amount), false, "";
    }

    /** handleCustomAmountClick: the custom box, with the preset cleared;
        the text typed earlier stays. */
    method ClickCustom()
      modifies this
      ensures isCustom && selectedAmount.None? && customAmount == old(customAmount)
      ensures Exclusive() && Total() == Numbers.ParseFloat(customAmount).GetOr(0.0)
    {
      isCustom, selectedAmount := true, None;
    }

    /** Typing in the custom box. */
    method SetCustomAmount(text: string)
      modifies this
      ensures customAmount == text && isCustom == old(isCustom) && selectedAmount == old(selectedAmount)
      ensures Exclusive() == old(Exclusive())
    {
      customAmount := text;
    }
  }

  /** Choosing any preset gives a total the forms' amount checks accept. */
  lemma {:induction false} PresetTotals(i: nat)
    requires i < |Presets()|
    ensures TotalOf(Some(Presets()[i]), "", false) >= 1.0
  {
  }
}
