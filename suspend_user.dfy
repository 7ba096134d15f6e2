/**
 * The sub-administrator suspension dialog (`SuspendUserModal`): an active
 * account is suspended with an optional reason, any other account is
 * reactivated without one.
 */
module SuspendUser {
  import opened Wrappers
  import opened Domain

  /** `status === 'active'`: an absent status is not active. */
  predicate IsSuspending(status: Option<string>) {
    status == Some("active")
  }

  /** `isSuspending ? reason : null` */
  function ReasonSent(status: Option<string>, reason: string): (r: Option<string>)
    ensures r.Some? <==> status == Some("active")
    ensures r.Some? ==> r.value == reason
  {
    if IsSuspending(status) then Some(reason) else None
  }

  /** A reactivation never carries a reason, whatever was typed. */
  lemma ReactivationIgnoresReason(status: Option<string>, a: string, b: string)
    ensures !IsSuspending(status) ==> ReasonSent(status, a) == ReasonSent(status, b) == None
  {
  }

  /** What submit hands to `onConfirm`. */
  datatype Confirmation = Confirmation(user: SousAdminProfile, reason: Option<string>)

  class SuspendDialog {
    var isOpen: bool
    var user: Option<SousAdminProfile>
    var reason: string

    constructor (isOpen: bool, user: Option<SousAdminProfile>)
      ensures this.isOpen == isOpen && this.user == user && reason == ""
    {
      this.isOpen, this.user := isOpen, user;
      reason := "";
    }

    /** Nothing is rendered without a user. */
    predicate Rendered()
      reads this
    {
      user.Some?
    }

    method ReasonChange(text: string)
      modifies this
      ensures reason == text && isOpen == old(isOpen) && user == old(user)
    {
      reason := text;
    }

    /** The `isOpen` effect: closing clears the reason; opening keeps it. */
    method OpenChange(open: bool)
      modifies this
      ensures isOpen == open && user == old(user)
      ensures reason == if open then old(reason) else ""
    {
      isOpen := open;
      if !open {
        reason := "";
      }
    }

    /**
     * `handleSubmit` (reachable only when rendered): the user and the reason
     * chosen by the decision go to `onConfirm`, then the dialog closes,
     * which clears the reason.
     */
    method Submit() returns (confirmed: Confirmation)
      requires Rendered()
      modifies this
      ensures confirmed == Confirmation(old(user).value, ReasonSent(old(user).value.status, old(reason)))
      ensures !isOpen && reason == "" && user == old(user)
    {
      confirmed := Confirmation(user.value, ReasonSent(user.value.status, reason));
      OpenChange(false);
    }
  }
}
