/**
 * The transaction rejection dialog (`RejectTransactionModal`): a reason that
 * is empty or whitespace only is refused with an error; any edit clears the
 * error; a confirmed reason goes out untrimmed.
 */
module RejectTransaction {
  import opened Wrappers
  import opened Js
  import opened Domain

  const ErrorMissingReason := "Le motif du rejet est obligatoire."

  /** `!reason.trim()` */
  predicate ReasonMissing(reason: string) {
    Trim(reason) == ""
  }

  /** A reason is refused exactly when it has no character other than whitespace. */
  lemma ReasonMissingExact(reason: string)
    ensures ReasonMissing(reason) <==> forall i :: 0 <= i < |reason| ==> IsSpace(reason[i])
  {
    TrimSpec(reason);
  }

  datatype Rejection = Rejection(transaction: Transaction, reason: string)

  class RejectDialog {
    var transaction: Option<Transaction>
    var reason: string
    var error: string

    constructor (transaction: Option<Transaction>)
      ensures this.transaction == transaction && reason == "" && error == ""
    {
      this.transaction := transaction;
      reason, error := "", "";
    }

    /** Nothing is rendered without a transaction. */
    predicate Rendered()
      reads this
    {
      transaction.Some?
    }

    /** Typing replaces the reason and clears a displayed error. */
    method ReasonChange(text: string)
      modifies this
      ensures reason == text && error == "" && transaction == old(transaction)
    {
      reason := text;
      if error != "" {
        error := "";
      }
    }

    /** The close effect. */
    method Close()
      modifies this
      ensures reason == "" && error == "" && transaction == old(transaction)
    {
      reason, error := "", "";
    }

    /**
     * `handleSubmit` (reachable only when rendered): a missing reason sets
     * the error and confirms nothing; otherwise the transaction and the
     * reason as typed are confirmed and the dialog closes.
     */
    method Submit() returns (confirmed: Option<Rejection>)
      requires Rendered()
      modifies this
      ensures ReasonMissing(old(reason)) ==>
        confirmed.None? && error == ErrorMissingReason && reason == old(reason)
      ensures !ReasonMissing(old(reason)) ==>
        confirmed == Some(Rejection(old(transaction).value, old(reason))) && reason == "" && error == ""
      ensures transaction == old(transaction)
    {
      if ReasonMissing(reason) {
        error := ErrorMissingReason;
        return None;
      }
      confirmed := Some(Rejection(transaction.value, reason));
      Close();
    }
  }
}
