/**
 * The general administrator's dashboard (`AdminGeneralDashboard`): the
 * pending-validation count, the business volume, the success rate, each
 * sub-administrator's workload and the latest audit entries, all computed
 * over lists given as inputs.
 */
module AdminDashboard {
  import opened Wrappers
  import opened Js
  import opened Lists
  import opened Domain
  import AdminQueue

  /** Lower-cased, the status mentions 'en attente' or 'assignée'. */
  predicate IsPendingOrAssigned(t: Transaction) {
    ContainsIgnoringCase(t.status, "en attente") || ContainsIgnoringCase(t.status, "assignée")
  }

  /** `pendingValidations` */
  function PendingValidations(txs: seq<Transaction>): (r: nat)
    ensures r <= |txs|
  {
    Count(txs, IsPendingOrAssigned)
  }

  lemma PendingMember(txs: seq<Transaction>, t: Transaction)
    ensures t in Filter(txs, IsPendingOrAssigned) <==> t in txs && IsPendingOrAssigned(t)
  {
    FilterMember(txs, IsPendingOrAssigned, t);
  }

  lemma WaitingIsPending()
    ensures ContainsIgnoringCase("En attente de validation", "en attente")
  {
    ContainsIgnoringCaseAtStart("En attente de validation", "en attente");
  }

  lemma ClaimedIsPending()
    ensures ContainsIgnoringCase("Assignée (validation en cours)", "assignée")
  {
    ContainsIgnoringCaseAtStart("Assignée (validation en cours)", "assignée");
  }

  /** Both statuses of the validation queue are counted as pending, the claimed one included. */
  lemma QueueStatusesCounted(t: Transaction)
    requires AdminQueue.AwaitingValidation(t)
    ensures IsPendingOrAssigned(t)
  {
    if t.status == "En attente de validation" {
      WaitingIsPending();
    } else {
      ClaimedIsPending();
    }
  }

  /** The decided statuses are too short to mention either word. */
  lemma DecidedNotPending(t: Transaction)
    requires t.status == Validated || t.status == "Rejeté"
    ensures !IsPendingOrAssigned(t)
  {
    if ContainsIgnoringCase(t.status, "en attente") {
      ContainsLength(Lower(t.status), Lower("en attente"));
    }
    if ContainsIgnoringCase(t.status, "assignée") {
      ContainsLength(Lower(t.status), Lower("assignée"));
    }
  }

  function Principal(t: Transaction): int {
    t.montantPrincipal
  }

  /** `totalVolume`: the principal amounts of all transactions. */
  function TotalVolume(txs: seq<Transaction>): int {
    Sum(txs, Principal)
  }

  lemma TotalVolumeAppend(a: seq<Transaction>, b: seq<Transaction>)
    ensures TotalVolume(a + b) == TotalVolume(a) + TotalVolume(b)
  {
    SumAppend(a, b, Principal);
  }

  /** The success rate: 'N/A', or the share of validated among decided transactions. */
  datatype SuccessRate = NotApplicable | Share(validated: nat, decided: nat)

  function IsRejected(t: Transaction): bool {
    t.status == "Rejeté"
  }

  function IsValidated(t: Transaction): bool {
    t.status == Validated
  }

  function SuccessRateOf(txs: seq<Transaction>): (r: SuccessRate)
    ensures r.NotApplicable? <==> forall i :: 0 <= i < |txs| ==> txs[i].status != Validated && txs[i].status != "Rejeté"
    ensures r.Share? ==> 0 < r.decided <= |txs| && r.validated <= r.decided
    ensures r.Share? ==> r.validated == Count(txs, IsValidated)
                         && r.decided == Count(txs, IsValidated) + Count(txs, IsRejected)
  {
    var v, j := Count(txs, IsValidated), Count(txs, IsRejected);
    CountDisjoint(txs, IsValidated, IsRejected);
    NoneDecidedIff(txs);
    if v + j > 0 then Share(v, v + j) else NotApplicable
  }

  /** No transaction is counted as validated or rejected exactly when none has either status. */
  lemma NoneDecidedIff(txs: seq<Transaction>)
    ensures Count(txs, IsValidated) == 0 && Count(txs, IsRejected) == 0
      <==> forall i :: 0 <= i < |txs| ==> txs[i].status != Validated && txs[i].status != "Rejeté"
  {
    FilterEmpty(txs, IsValidated);
    FilterEmpty(txs, IsRejected);
  }

  /** One workload line: a sub-administrator and the transactions assigned to them. */
  datatype Workload = Workload(subAdmin: User, taskCount: nat)

  function WorkloadOf(users: seq<User>, txs: seq<Transaction>): (r: seq<Workload>)
    ensures |r| == |Filter(users, IsSousAdmin)|
    ensures forall i :: 0 <= i < |r| ==>
      r[i] == Workload(Filter(users, IsSousAdmin)[i], TaskCount(txs, Filter(users, IsSousAdmin)[i].id))
  {
    Lines(Filter(users, IsSousAdmin), txs)
  }

  function Lines(subAdmins: seq<User>, txs: seq<Transaction>): (r: seq<Workload>)
    ensures |r| == |subAdmins|
    ensures forall i :: 0 <= i < |r| ==> r[i] == Workload(subAdmins[i], TaskCount(txs, subAdmins[i].id))
  {
    if subAdmins == [] then []
    else [Workload(subAdmins[0], TaskCount(txs, subAdmins[0].id))] + Lines(subAdmins[1..], txs)
  }

  /** The workload has a line for a user exactly when that user is a sub-administrator. */
  lemma WorkloadCoversSubAdmins(users: seq<User>, txs: seq<Transaction>, u: User)
    ensures (exists i :: 0 <= i < |WorkloadOf(users, txs)| && WorkloadOf(users, txs)[i].subAdmin == u)
            <==> u in users && RoleOf(u) == RoleSousAdmin
  {
    FilterMember(users, IsSousAdmin, u);
    var s := Filter(users, IsSousAdmin);
    if u in s {
      var i :| 0 <= i < |s| && s[i] == u;
      assert WorkloadOf(users, txs)[i].subAdmin == u;
    }
  }

  /** `mockAuditLogs.slice(0, 4)` */
  function RecentActivities<T>(logs: seq<T>): (r: seq<T>)
    ensures |r| == if |logs| < 4 then |logs| else 4
    ensures forall i :: 0 <= i < |r| ==> r[i] == logs[i]
  {
    TakeFirst(logs, 4);
    Slice(logs, 0, 4)
  }
}
