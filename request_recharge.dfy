/**
 * The agent's recharge request form (`RequestRechargeModal`): submit needs a
 * positive amount, the reason goes through as typed, closing clears both,
 * and the history table shows at most five requests.
 */
module RequestRecharge {
  import opened Wrappers
  import opened Lists
  import opened Js
  import opened Domain

  datatype RechargeDemand = RechargeDemand(amount: int, reason: string)

  predicate SubmitAccepted(amount: Entry) {
    amount.Amount? && amount.value > 0
  }

  /** The table rows: the first five requests of the history, in its order. */
  function HistoryRows(history: seq<AgentRechargeRequest>): (r: seq<AgentRechargeRequest>)
    ensures |r| <= 5
    ensures |r| == if |history| < 5 then |history| else 5
    ensures forall i :: 0 <= i < |r| ==> r[i] == history[i]
  {
    TakeFirst(history, 5);
    Slice(history, 0, 5)
  }

  class RequestForm {
    var amount: Entry
    var reason: string

    constructor ()
      ensures amount == Blank && reason == ""
    {
      amount, reason := Blank, "";
    }

    /** The amount field: '' for empty, otherwise the number. */
    method AmountChange(input: Entry)
      modifies this
      ensures amount == input && reason == old(reason)
    {
      amount := input;
    }

    method ReasonChange(text: string)
      modifies this
      ensures reason == text && amount == old(amount)
    {
      reason := text;
    }

    /** The close effect. */
    method Close()
      modifies this
      ensures amount == Blank && reason == ""
    {
      amount, reason := Blank, "";
    }

    /**
     * `handleSubmit`: a positive amount sends {amount, reason} (the reason
     * possibly '') and closes, which clears the form; otherwise nothing
     * happens and no error is shown.
     */
    method Submit() returns (saved: Option<RechargeDemand>)
      modifies this
      ensures SubmitAccepted(old(amount)) ==>
        saved == Some(RechargeDemand(old(amount).value, old(reason))) && amount == Blank && reason == ""
      ensures !SubmitAccepted(old(amount)) ==> saved.None? && amount == old(amount) && reason == old(reason)
    {
      if !SubmitAccepted(amount) {
        return None;
      }
      saved := Some(RechargeDemand(amount.value, reason));
      Close();
    }
  }
}
