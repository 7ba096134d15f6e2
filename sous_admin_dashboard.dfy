/**
 * The sub-administrator's dashboard (`SousAdminDashboard`): two figures
 * over the transaction list, the validations the viewer holds and those
 * nobody holds. The counted list is an input.
 */
module SousAdminDashboard {
  import opened Wrappers
  import opened Js
  import opened Lists
  import opened Domain
  import AdminQueue

  const Pending := "En attente"

  predicate IsPendingStatus(t: Transaction) {
    Contains(t.status, Pending)
  }

  /** 'Mes Validations Assignées' as written: held by the viewer and with 'En attente' in the status. */
  function MyAssignedAsWritten(txs: seq<Transaction>, viewer: string): nat {
    Count(txs, (t: Transaction) => t.assignedTo == Some(viewer) && IsPendingStatus(t))
  }

  /** 'Validations Non Assignées': 'En attente' in the status and no assignee. */
  function UnassignedCount(txs: seq<Transaction>): nat {
    Count(txs, (t: Transaction) => IsPendingStatus(t) && !Present(t.assignedTo))
  }

  /** For a viewer with a non-empty id the two figures count disjoint sets. */
  lemma FiguresDisjoint(txs: seq<Transaction>, viewer: string)
    requires viewer != ""
    ensures MyAssignedAsWritten(txs, viewer) + UnassignedCount(txs) <= |txs|
    ensures MyAssigned(txs, viewer) + UnassignedCount(txs) <= |txs|
  {
    CountDisjoint(txs, (t: Transaction) => t.assignedTo == Some(viewer) && IsPendingStatus(t),
                  (t: Transaction) => IsPendingStatus(t) && !Present(t.assignedTo));
    CountDisjoint(txs, (t: Transaction) => AdminQueue.AwaitingValidation(t) && t.assignedTo == Some(viewer),
                  (t: Transaction) => IsPendingStatus(t) && !Present(t.assignedTo));
  }

  /** A status containing 'En attente' contains a capital 'E'. */
  lemma PendingHasCapitalE(status: string)
    requires Contains(status, Pending)
    ensures 'E' in status
  {
    var i := ContainsWitness(status, Pending);
    assert status[i] == status[i..i + |Pending|][0];
  }

  const Claimed := "Assignée (validation en cours)"

  /** The status of a claimed validation does not contain 'En attente'. */
  lemma ClaimedNotPending()
    ensures !Contains(Claimed, Pending)
  {
    assert 'E' !in Claimed;
    if Contains(Claimed, Pending) {
      PendingHasCapitalE(Claimed);
      assert false;
    }
  }

  /**
   * The status a claimed validation carries is counted in neither figure, so
   * a validation the viewer has claimed, which their queue lists under
   * 'assigned to me', is missing from 'Mes Validations Assignées'.
   */
  lemma ClaimedValidationNotCounted(t: Transaction, viewer: string)
    requires t.status == Claimed && t.assignedTo == Some(viewer)
    ensures MyAssignedAsWritten([t], viewer) == 0 && UnassignedCount([t]) == 0
    ensures |AdminQueue.FilterItems(QueueOf([t]), AdminQueue.AssignedToMe, viewer)| == 1
  {
    ClaimedUncounted(t, viewer);
    ClaimedQueued(t, viewer);
  }

  lemma ClaimedUncounted(t: Transaction, viewer: string)
    requires t.status == Claimed
    ensures MyAssignedAsWritten([t], viewer) == 0 && UnassignedCount([t]) == 0
  {
    ClaimedNotPending();
    FilterSingle(t, (t: Transaction) => t.assignedTo == Some(viewer) && IsPendingStatus(t));
    FilterSingle(t, (t: Transaction) => IsPendingStatus(t) && !Present(t.assignedTo));
  }

  lemma ClaimedQueued(t: Transaction, viewer: string)
    requires t.status == Claimed && t.assignedTo == Some(viewer)
    ensures |AdminQueue.FilterItems(QueueOf([t]), AdminQueue.AssignedToMe, viewer)| == 1
  {
    FilterSingle(t, AdminQueue.AwaitingValidation);
    var it := AdminQueue.TxItem(t);
    assert TxItems([t]) == [it] by { assert [t][1..] == []; }
    FilterSingle(it, (it: AdminQueue.Item) => AdminQueue.IsAssignedTo(it, viewer));
  }

  function TxItems(txs: seq<Transaction>): (r: seq<AdminQueue.Item>)
    ensures |r| == |txs| && forall i :: 0 <= i < |txs| ==> r[i] == AdminQueue.TxItem(txs[i])
  {
    if txs == [] then [] else [AdminQueue.TxItem(txs[0])] + TxItems(txs[1..])
  }

  /** The validation queue over the same list: the transactions awaiting a decision. */
  function QueueOf(txs: seq<Transaction>): seq<AdminQueue.Item> {
    TxItems(Filter(txs, AdminQueue.AwaitingValidation))
  }

  /** 'Mes Validations Assignées' counted over the validation queue's own status set. */
  function MyAssigned(txs: seq<Transaction>, viewer: string): nat {
    Count(txs, (t: Transaction) => AdminQueue.AwaitingValidation(t) && t.assignedTo == Some(viewer))
  }

  /** With the queue's status set, the figure is the size of the viewer's 'assigned to me' view. */
  lemma MyAssignedMatchesQueue(txs: seq<Transaction>, viewer: string)
    ensures MyAssigned(txs, viewer) == |AdminQueue.FilterItems(QueueOf(txs), AdminQueue.AssignedToMe, viewer)|
  {
    var queued := Filter(txs, AdminQueue.AwaitingValidation);
    MineOfItems(queued, viewer);
    FilterFilter(txs, AdminQueue.AwaitingValidation, (t: Transaction) => t.assignedTo == Some(viewer),
                 (t: Transaction) => AdminQueue.AwaitingValidation(t) && t.assignedTo == Some(viewer));
  }

  /** Picking the viewer's items from the queue's items picks the viewer's transactions. */
  lemma {:induction false} MineOfItems(txs: seq<Transaction>, viewer: string)
    ensures AdminQueue.FilterItems(TxItems(txs), AdminQueue.AssignedToMe, viewer)
      == TxItems(Filter(txs, (t: Transaction) => t.assignedTo == Some(viewer)))
  {
    if txs != [] {
      MineOfItems(txs[1..], viewer);
      var items := TxItems(txs);
      assert items == [AdminQueue.TxItem(txs[0])] + TxItems(txs[1..]);
      assert items[1..] == TxItems(txs[1..]);
      var mine := Filter(txs[1..], (t: Transaction) => t.assignedTo == Some(viewer));
      if txs[0].assignedTo == Some(viewer) {
        assert TxItems([txs[0]] + mine) == [AdminQueue.TxItem(txs[0])] + TxItems(mine) by {
          assert ([txs[0]] + mine)[1..] == mine;
        }
      }
    }
  }

  /** Both definitions agree on validations that are still waiting to be claimed. */
  lemma WaitingCountedByBoth(t: Transaction, viewer: string)
    requires t.status == "En attente de validation" && t.assignedTo == Some(viewer)
    ensures MyAssignedAsWritten([t], viewer) == MyAssigned([t], viewer) == 1
  {
    ContainsAt(t.status, Pending, 0);
    assert [t][1..] == [];
  }
}
