/**
 * The agent's dashboard (`AgentDashboard`): the month's transaction count,
 * the commissions due and the monthly estimate computed from the agent's
 * transactions, and the recent-activity list with its detail text, icon
 * and sign. `startOfMonth` is the first instant of the current month.
 */
module AgentDashboard {
  import opened Wrappers
  import opened Js
  import opened Lists
  import opened Domain

  const RecentCount := 5

  predicate InMonth(startOfMonth: int, t: Transaction) {
    t.createdAt >= startOfMonth
  }

  /** `monthTxs` */
  function MonthTransactions(txs: seq<Transaction>, startOfMonth: int): seq<Transaction> {
    Filter(txs, (t: Transaction) => InMonth(startOfMonth, t))
  }

  function IsValidated(t: Transaction): bool {
    t.status == Validated
  }

  datatype Stats = Stats(transactionsThisMonth: nat, commissionsDues: int, commissionsMoisEstimees: int)

  /** The stats computed once the agent's transactions are loaded. */
  function StatsOf(txs: seq<Transaction>, startOfMonth: int): (r: Stats)
    ensures r.transactionsThisMonth <= |txs|
  {
    var month := MonthTransactions(txs, startOfMonth);
    Stats(|month|, Sum(Filter(txs, IsValidated), TxCommission), Sum(month, TxCommission))
  }

  /** A transaction is counted in the month exactly when it was created at or after the month's start. */
  lemma MonthMember(txs: seq<Transaction>, startOfMonth: int, t: Transaction)
    ensures t in MonthTransactions(txs, startOfMonth) <==> t in txs && t.createdAt >= startOfMonth
  {
    FilterMember(txs, (t: Transaction) => InMonth(startOfMonth, t), t);
  }

  /**
   * One more transaction adds its commission to the dues only when it is
   * validated, and to the estimate only when it is in the month, whatever its
   * status; it adds one to the count exactly when it is in the month.
   */
  lemma StatsSnoc(txs: seq<Transaction>, t: Transaction, startOfMonth: int)
    ensures var before, after := StatsOf(txs, startOfMonth), StatsOf(txs + [t], startOfMonth);
      after.commissionsDues == before.commissionsDues + (if t.status == Validated then t.commissionGeneree else 0)
      && after.commissionsMoisEstimees == before.commissionsMoisEstimees + (if t.createdAt >= startOfMonth then t.commissionGeneree else 0)
      && after.transactionsThisMonth == before.transactionsThisMonth + (if t.createdAt >= startOfMonth then 1 else 0)
  {
    var inMonth := (t: Transaction) => InMonth(startOfMonth, t);
    FilterAppend(txs, [t], IsValidated);
    FilterAppend(txs, [t], inMonth);
    assert [t][1..] == [];
    var v, m := Filter([t], IsValidated), Filter([t], inMonth);
    SumAppend(Filter(txs, IsValidated), v, TxCommission);
    SumAppend(Filter(txs, inMonth), m, TxCommission);
    assert Sum(v, TxCommission) == if t.status == Validated then t.commissionGeneree else 0 by {
      if t.status == Validated { assert v == [t] && v[..0] == []; }
    }
    assert Sum(m, TxCommission) == if t.createdAt >= startOfMonth then t.commissionGeneree else 0 by {
      if t.createdAt >= startOfMonth { assert m == [t] && m[..0] == []; }
    }
  }

  /**
   * The dues count validated transactions of any date, the estimate every
   * transaction of this month: when no validated transaction predates the
   * month and no commission is negative, the dues never exceed the estimate.
   */
  lemma {:induction false} MonthDuesWithinEstimate(txs: seq<Transaction>, startOfMonth: int)
    requires forall i :: 0 <= i < |txs| ==> txs[i].commissionGeneree >= 0
    requires forall i :: 0 <= i < |txs| && txs[i].status == Validated ==> txs[i].createdAt >= startOfMonth
    ensures StatsOf(txs, startOfMonth).commissionsDues <= StatsOf(txs, startOfMonth).commissionsMoisEstimees
  {
    if txs != [] {
      var init, t := txs[..|txs| - 1], txs[|txs| - 1];
      assert forall i :: 0 <= i < |init| ==> init[i] == txs[i];
      MonthDuesWithinEstimate(init, startOfMonth);
      StatsLast(txs, startOfMonth);
    }
  }

  /** `StatsSnoc` read on the last transaction of a non-empty list. */
  lemma StatsLast(txs: seq<Transaction>, startOfMonth: int)
    requires txs != []
    ensures var before, after, t := StatsOf(txs[..|txs| - 1], startOfMonth), StatsOf(txs, startOfMonth), txs[|txs| - 1];
      after.commissionsDues == before.commissionsDues + (if t.status == Validated then t.commissionGeneree else 0)
      && after.commissionsMoisEstimees == before.commissionsMoisEstimees + (if t.createdAt >= startOfMonth then t.commissionGeneree else 0)
  {
    var init, t := txs[..|txs| - 1], txs[|txs| - 1];
    assert txs == init + [t];
    StatsSnoc(init, t, startOfMonth);
  }

  /** `transactions.slice(0, 5)` */
  function Recent(txs: seq<Transaction>): (r: seq<Transaction>)
    ensures |r| == if |txs| < RecentCount then |txs| else RecentCount
    ensures forall i :: 0 <= i < |r| ==> r[i] == txs[i]
  {
    TakeFirst(txs, RecentCount);
    Slice(txs, 0, RecentCount)
  }

  /** `opTypes.find(ot => ot.id === op.op_type_id)` */
  function OpTypeOf(opTypes: seq<OperationType>, t: Transaction): Option<OperationType> {
    Find(opTypes, (ot: OperationType) => ot.id == t.opTypeId)
  }

  function Member(data: map<string, JsValue>, key: string): JsValue {
    if key in data then data[key] else Undefined
  }

  /**
   * The detail line of a recent transaction: the beneficiary of a national
   * transfer, the SDE invoice, the Canal decoder, and '' for any other type
   * or when the data is not a JSON object.
   */
  function Details(data: Json, opType: Option<OperationType>): (r: string)
    ensures !data.JObject? || opType.None? ==> r == ""
    ensures data.JObject? && opType.Some? && opType.value.id !in {"op_transfert_nat", "op_paiement_sde", "op_reabo_canal"} ==> r == ""
    ensures data.JObject? && opType.Some? && opType.value.id == "op_transfert_nat" ==>
      r == "vers " + ToText(Member(data.members, "nom_beneficiaire"))
    ensures data.JObject? && opType.Some? && opType.value.id == "op_paiement_sde" ==>
      r == "Facture " + ToText(Member(data.members, "num_facture_sde"))
    ensures data.JObject? && opType.Some? && opType.value.id == "op_reabo_canal" ==>
      r == "Décodeur " + ToText(Member(data.members, "num_decodeur_canal"))
  {
    match data
    case JOther => ""
    case JObject(members) =>
      if opType.None? then ""
      else if opType.value.id == "op_transfert_nat" then "vers " + ToText(Member(members, "nom_beneficiaire"))
      else if opType.value.id == "op_paiement_sde" then "Facture " + ToText(Member(members, "num_facture_sde"))
      else if opType.value.id == "op_reabo_canal" then "Décodeur " + ToText(Member(members, "num_decodeur_canal"))
      else ""
  }

  /** `getIcon`: the first of 'Transfert', 'Paiement', 'abonnement' the type's name contains. */
  function Icon(opType: Option<OperationType>): (r: string)
    ensures opType.None? ==> r == "fa-receipt"
    ensures opType.Some? && Contains(opType.value.name, "Transfert") ==> r == "fa-exchange-alt"
    ensures r == "fa-tv" <==> opType.Some? && !Contains(opType.value.name, "Transfert")
                              && !Contains(opType.value.name, "Paiement") && Contains(opType.value.name, "abonnement")
    ensures r == "fa-file-invoice-dollar" <==> opType.Some? && !Contains(opType.value.name, "Transfert")
                                                && Contains(opType.value.name, "Paiement")
    ensures (opType.Some? && !Contains(opType.value.name, "Transfert") && !Contains(opType.value.name, "Paiement")
             && !Contains(opType.value.name, "abonnement")) ==> r == "fa-receipt"
  {
    if opType.None? then "fa-receipt"
    else if Contains(opType.value.name, "Transfert") then "fa-exchange-alt"
    else if Contains(opType.value.name, "Paiement") then "fa-file-invoice-dollar"
    else if Contains(opType.value.name, "abonnement") then "fa-tv"
    else "fa-receipt"
  }

  /** The amount's sign: a debit for a type that impacts the balance, otherwise a credit (also for an unknown type). */
  function Sign(opType: Option<OperationType>): (r: string)
    ensures r == "-" <==> opType.Some? && opType.value.impactsBalance
    ensures r == "-" || r == "+"
  {
    if opType.Some? && opType.value.impactsBalance then "-" else "+"
  }
}
