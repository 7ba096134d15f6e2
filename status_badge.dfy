/** The status badge's classification of free-text statuses (`StatusBadge.tsx`). */
module StatusBadge {
  import opened Js

  datatype Tone = Success | Pending | Failure | Neutral

  datatype BadgeConfig = BadgeConfig(classes: string, icon: string, ariaLabel: string)

  predicate SuccessWord(n: string) {
    Contains(n, "validé") || Contains(n, "approuvé") || Contains(n, "active")
  }

  predicate PendingWord(n: string) {
    Contains(n, "attente") || Contains(n, "pending")
  }

  predicate FailureWord(n: string) {
    Contains(n, "rejeté") || Contains(n, "refusé") || Contains(n, "suspended")
  }

  /** The ordered chain of tests on the lower-cased status. */
  function ToneOf(status: string): Tone {
    var n := Lower(status);
    if SuccessWord(n) then Success
    else if PendingWord(n) then Pending
    else if FailureWord(n) then Failure
    else Neutral
  }

  /** `getStatusConfig(status)` */
  function GetStatusConfig(status: string): (r: BadgeConfig)
    ensures ToneOf(status) == Success <==> r.icon == "fa-check-circle"
    ensures ToneOf(status) == Pending <==> r.icon == "fa-clock"
    ensures ToneOf(status) == Failure <==> r.icon == "fa-times-circle"
    ensures ToneOf(status) == Neutral <==> r.ariaLabel == "Statut: " + status && r.icon == "fa-info-circle"
    ensures r.icon != "fa-info-circle" ==> r.ariaLabel in {"Statut: Validé", "Statut: En attente", "Statut: Rejeté"}
  {
    match ToneOf(status)
    case Success => BadgeConfig("status-badge status-success", "fa-check-circle", "Statut: Validé")
    case Pending => BadgeConfig("status-badge status-pending", "fa-clock", "Statut: En attente")
    case Failure => BadgeConfig("status-badge status-error", "fa-times-circle", "Statut: Rejeté")
    case Neutral =>
      BadgeConfig("status-badge bg-gray-100 text-gray-800 dark:bg-gray-700 dark:text-gray-300",
                  "fa-info-circle", "Statut: " + status)
  }

  /**
   * The tests are tried in order: a status is pending only when it has no
   * success word, and an error only when it has neither a success nor a
   * pending word.
   */
  lemma ToneOrder(status: string)
    ensures var n := Lower(status);
      (ToneOf(status) == Success <==> SuccessWord(n))
      && (ToneOf(status) == Pending <==> !SuccessWord(n) && PendingWord(n))
      && (ToneOf(status) == Failure <==> !SuccessWord(n) && !PendingWord(n) && FailureWord(n))
      && (ToneOf(status) == Neutral <==> !SuccessWord(n) && !PendingWord(n) && !FailureWord(n))
  {
  }

  /** The classification ignores letter case. */
  lemma ToneIgnoresCase(status: string)
    ensures ToneOf(Lower(status)) == ToneOf(status)
  {
    LowerIdempotent(status);
  }

  /** 'inactive' contains 'active', which is checked first, so it shows as a success. */
  lemma InactiveIsSuccess()
    ensures ToneOf("inactive") == Success
  {
    var n := Lower("inactive");
    assert n[2..8] == "active" by {
      assert n[2] == 'a' && n[3] == 'c' && n[4] == 't' && n[5] == 'i' && n[6] == 'v' && n[7] == 'e';
    }
    ContainsAt(n, "active", 2);
  }

}
