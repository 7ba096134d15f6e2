/**
 * The chef's self-recharge form (`ChefSelfRechargeModal`): non-positive
 * entries are stored as 0, submit needs a positive amount, and the preview
 * adds the amount to the balance.
 */
module ChefSelfRecharge {
  import opened Wrappers
  import opened Js

  const ErrorInvalid := "Veuillez saisir un montant valide."

  /** `handleAmountChange`: blank stays blank; a positive number is kept; anything else becomes 0. */
  function StoredAmount(input: Entry): (r: Entry)
    ensures r.Blank? <==> input.Blank?
    ensures r.Amount? ==> r.value >= 0
    ensures input.Amount? && input.value > 0 ==> r == input
    ensures input.Amount? && input.value <= 0 ==> r == Amount(0)
  {
    if input.Blank? then Blank else if input.value > 0 then input else Amount(0)
  }

  predicate SubmitAccepted(amount: Entry) {
    amount.Amount? && amount.value > 0
  }

  function BalanceAfter(amount: Entry, solde: Option<int>): Option<int> {
    if amount.Amount? then Some(solde.GetOr(0) + amount.value) else solde
  }

  /** A stored amount never projects a balance below the current one; submit goes through exactly for a positive stored amount. */
  lemma PreviewNeverBelow(input: Entry, solde: Option<int>)
    ensures BalanceAfter(StoredAmount(input), solde).GetOr(0) >= solde.GetOr(0)
    ensures SubmitAccepted(StoredAmount(input)) <==> input.Amount? && input.value > 0
  {
  }

  class SelfRechargeForm {
    const solde: Option<int>
    var amount: Entry
    var error: string

    constructor (solde: Option<int>)
      ensures this.solde == solde && amount == Blank && error == ""
    {
      this.solde := solde;
      amount, error := Blank, "";
    }

    method AmountChange(input: Entry)
      modifies this
      ensures amount == StoredAmount(input) && error == ""
    {
      amount, error := StoredAmount(input), "";
    }

    /** `handleSubmit`: a positive amount is saved, the field cleared and the modal closed; otherwise an error. */
    method Submit() returns (saved: Option<int>, closes: bool)
      modifies this
      ensures SubmitAccepted(old(amount)) ==> saved == Some(old(amount).value) && closes && amount == Blank && error == old(error)
      ensures !SubmitAccepted(old(amount)) ==> saved.None? && !closes && amount == old(amount) && error == ErrorInvalid
    {
      if !SubmitAccepted(amount) {
        error := ErrorInvalid;
        return None, false;
      }
      saved := Some(amount.value);
      amount := Blank;
      closes := true;
    }
  }
}
