/**
 * The chef's commission-to-balance transfer form (`TransferCommissionsModal`):
 * an amount field clamped to [0, dues] as it is typed, a submit guard, and a
 * preview of commissions and balance after the transfer.
 */
module TransferCommissions {
  import opened Wrappers
  import opened Js

  const ErrorAboveDues := "Le montant ne peut pas dépasser les commissions dues."
  const ErrorNegative := "Le montant doit être positif."
  const ErrorInvalid := "Veuillez saisir un montant valide."

  /**
   * The amount is blank or lies in [0, dues]; with no dues on record
   * (`commissions_perso_dues` undefined, so `n > dues` is false) only the
   * lower bound applies.
   */
  predicate InRange(amount: Entry, dues: Option<int>) {
    amount.Blank? || (0 <= amount.value && (dues.None? || amount.value <= dues.value))
  }

  /** `numValue > chef.commissions_perso_dues`, false when the dues are undefined. */
  predicate AboveDues(n: int, dues: Option<int>) {
    dues.Some? && n > dues.value
  }

  /** `handleAmountChange`: the new amount and error for what was typed. */
  function AfterChange(input: Entry, dues: Option<int>): (r: (Entry, string))
    ensures r.1 == "" <==> InRange(input, dues)
    ensures r.1 == "" ==> r.0 == input
    ensures r.1 == ErrorAboveDues <==> input.Amount? && AboveDues(input.value, dues)
    ensures r.1 == ErrorNegative <==> input.Amount? && input.value < 0 && !AboveDues(input.value, dues)
    ensures r.1 != "" ==> r.0.Amount? && (r.0.value == 0 || dues == Some(r.0.value))
    ensures (dues.None? || dues.value >= 0) ==> InRange(r.0, dues)
  {
    if input.Blank? then (Blank, "")
    else if AboveDues(input.value, dues) then (Amount(dues.value), ErrorAboveDues)
    else if input.value < 0 then (Amount(0), ErrorNegative)
    else (input, "")
  }

  /** What the field shows after any input is accepted as is when typed again (for non-negative dues). */
  lemma ChangeSettles(input: Entry, dues: Option<int>)
    requires dues.None? || dues.value >= 0
    ensures AfterChange(AfterChange(input, dues).0, dues) == (AfterChange(input, dues).0, "")
  {
    var stored := AfterChange(input, dues).0;
    assert InRange(stored, dues);
  }

  /** `handleSubmit`'s guard: a number with 0 < amount and not above the dues. */
  predicate SubmitAccepted(amount: Entry, dues: Option<int>) {
    amount.Amount? && 0 < amount.value && !AboveDues(amount.value, dues)
  }

  /** The confirm button's `disabled` condition. */
  predicate ConfirmDisabled(amount: Entry) {
    !(amount.Amount? && amount.value > 0)
  }

  /** On a stored amount the button and the guard agree: the button is enabled exactly when submit would go through. */
  lemma ButtonMatchesGuard(amount: Entry, dues: Option<int>)
    requires InRange(amount, dues)
    ensures !ConfirmDisabled(amount) <==> SubmitAccepted(amount, dues)
  {
  }

  /** With no dues on record every comparison with them is false: any positive amount passes the guard. */
  lemma MissingDuesAcceptAnyPositive(n: int)
    requires n > 0
    ensures SubmitAccepted(Amount(n), None)
    ensures AfterChange(Amount(n), None) == (Amount(n), "")
  {
  }

  /**
   * The commissions preview: `dues - amount` when a number is entered, else
   * the dues; undefined dues give NaN after a subtraction and stay undefined
   * otherwise.
   */
  function CommissionsAfter(amount: Entry, dues: Option<int>): JsValue {
    if dues.None? then (if amount.Amount? then NaN else Undefined)
    else if amount.Amount? then Num(dues.value - amount.value)
    else Num(dues.value)
  }

  /** The balance preview: `solde + amount`, where a null balance adds as 0, else the balance as is. */
  function BalanceAfter(amount: Entry, solde: Option<int>): Option<int> {
    if amount.Amount? then Some(solde.GetOr(0) + amount.value) else solde
  }

  /** What leaves the commissions arrives in the balance: the preview's total is dues plus balance. */
  lemma PreviewConserves(amount: Entry, dues: Option<int>, solde: Option<int>)
    ensures dues.Some? ==> CommissionsAfter(amount, dues).Num?
    ensures dues.Some? ==> CommissionsAfter(amount, dues).n + BalanceAfter(amount, solde).GetOr(0) == dues.value + solde.GetOr(0)
    ensures dues.Some? && amount.Amount? ==> CommissionsAfter(amount, dues).n == dues.value - amount.value
    ensures InRange(amount, dues) && amount.Amount? && dues.Some? ==> 0 <= CommissionsAfter(amount, dues).n <= dues.value
    ensures dues.None? ==> !CommissionsAfter(amount, dues).Num?
  {
  }

  class TransferForm {
    const dues: Option<int>
    const solde: Option<int>
    var amount: Entry
    var error: string

    /** The chef's `commissions_perso_dues` (possibly undefined) and `solde` (possibly null). */
    constructor (dues: Option<int>, solde: Option<int>)
      ensures this.dues == dues && this.solde == solde && amount == Blank && error == ""
    {
      this.dues, this.solde := dues, solde;
      amount, error := Blank, "";
    }

    /**
     * The open effect: pre-fill with the dues and clear the error.  Undefined
     * dues leave an amount that is not a number, which every test of the form
     * (`typeof amount !== 'number'`) treats like the blank entry.
     */
    method Open()
      modifies this
      ensures amount == (if dues.Some? then Amount(dues.value) else Blank) && error == ""
    {
      amount, error := if dues.Some? then Amount(dues.value) else Blank, "";
    }

    method AmountChange(input: Entry)
      modifies this
      ensures (amount, error) == AfterChange(input, dues)
    {
      var r := AfterChange(input, dues);
      amount, error := r.0, r.1;
    }

    /** `handleSubmit`: the amount to transfer, or an error and nothing. */
    method Submit() returns (confirmed: Option<int>)
      modifies this
      ensures SubmitAccepted(old(amount), dues) ==> confirmed == Some(old(amount).value) && error == old(error)
      ensures !SubmitAccepted(old(amount), dues) ==> confirmed.None? && error == ErrorInvalid
      ensures amount == old(amount)
    {
      if !SubmitAccepted(amount, dues) {
        error := ErrorInvalid;
        return None;
      }
      confirmed := Some(amount.value);
    }
  }
}
