/**
 * The chef's commission page (`ChefCommissions`): the agency leaderboard,
 * built by folding validated transactions into per-agent totals, and the
 * chef's own commission-bearing transactions. The two queries are modelled
 * as filters over the fetched rows.
 */
module ChefCommissions {
  import opened Wrappers
  import opened Lists
  import opened Domain

  const LeaderboardSize := 5

  function IdsOf(users: seq<User>): set<string> {
    set u | u in users :: u.id
  }

  /** The transactions query: the validated transactions of the given agents. */
  function AgentsValidated(txs: seq<Transaction>, agentIds: set<string>): seq<Transaction> {
    Filter(txs, (t: Transaction) => t.agentId in agentIds && t.status == Validated)
  }

  /** `acc[k] || 0` */
  function Lookup(m: map<string, int>, k: string): int {
    if k in m then m[k] else 0
  }

  /** The accumulator of `commissionsByAgent` after the reduce has seen `txs`. */
  function ByAgent(txs: seq<Transaction>): map<string, int> {
    if txs == [] then map[]
    else
      var acc := ByAgent(txs[..|txs| - 1]);
      var t := txs[|txs| - 1];
      if t.agentId != "" then acc[t.agentId := Lookup(acc, t.agentId) + t.commissionGeneree] else acc
  }

  /** The reduce itself, one transaction at a time. */
  method CommissionsByAgent(txs: seq<Transaction>) returns (acc: map<string, int>)
    ensures acc == ByAgent(txs)
  {
    acc := map[];
    var i := 0;
    while i < |txs|
      invariant 0 <= i <= |txs|
      invariant acc == ByAgent(txs[..i])
    {
      assert txs[..i + 1][..i] == txs[..i];
      var t := txs[i];
      if t.agentId != "" {
        acc := acc[t.agentId := Lookup(acc, t.agentId) + t.commissionGeneree];
      }
      i := i + 1;
    }
    assert txs[..i] == txs;
  }

  function OfAgent(id: string): Transaction -> bool {
    (t: Transaction) => t.agentId == id
  }

  /** Transactions with an empty agent id never get an entry. */
  lemma {:induction false} ByAgentSkipsEmpty(txs: seq<Transaction>)
    ensures "" !in ByAgent(txs)
  {
    if txs != [] {
      ByAgentSkipsEmpty(txs[..|txs| - 1]);
    }
  }

  /** An agent has an entry exactly when one of the transactions is theirs. */
  lemma {:induction false} ByAgentKeys(txs: seq<Transaction>, id: string)
    requires id != ""
    ensures id in ByAgent(txs) <==> exists i :: 0 <= i < |txs| && txs[i].agentId == id
  {
    if txs != [] {
      var init, t := txs[..|txs| - 1], txs[|txs| - 1];
      ByAgentKeys(init, id);
      if id !in ByAgent(txs) {
        forall i | 0 <= i < |txs| ensures txs[i].agentId != id {
          if i < |init| { assert txs[i] == init[i]; }
        }
      }
      if id in ByAgent(txs) && t.agentId != id {
        var i :| 0 <= i < |init| && init[i].agentId == id;
        assert txs[i] == init[i];
      }
    }
  }

  /** One more transaction adds its commission to its own agent's total only. */
  lemma ByAgentStep(init: seq<Transaction>, t: Transaction, id: string)
    requires id != ""
    ensures Lookup(ByAgent(init + [t]), id) == Lookup(ByAgent(init), id) + (if t.agentId == id then t.commissionGeneree else 0)
  {
    assert (init + [t])[..|init + [t]| - 1] == init;
  }

  /** Each agent's total is the sum of the commissions of their transactions (0 for none). */
  lemma {:induction false} ByAgentTotal(txs: seq<Transaction>, id: string)
    requires id != ""
    ensures Lookup(ByAgent(txs), id) == Sum(Filter(txs, OfAgent(id)), TxCommission)
  {
    if txs != [] {
      var init, t := txs[..|txs| - 1], txs[|txs| - 1];
      ByAgentTotal(init, id);
      assert txs == init + [t];
      ByAgentTotalSnoc(init, t, id);
    }
  }

  /** The total stays the sum of the agent's commissions when one more transaction is folded in. */
  lemma ByAgentTotalSnoc(init: seq<Transaction>, t: Transaction, id: string)
    requires id != ""
    requires Lookup(ByAgent(init), id) == Sum(Filter(init, OfAgent(id)), TxCommission)
    ensures Lookup(ByAgent(init + [t]), id) == Sum(Filter(init + [t], OfAgent(id)), TxCommission)
  {
    ByAgentStep(init, t, id);
    SumFilterSnoc(init, t, OfAgent(id), TxCommission);
  }

  /** One leaderboard row: an agent and their total (`commissionsGenerated`). */
  datatype Ranked = Ranked(agent: User, total: int)

  function Total(r: Ranked): int {
    r.total
  }

  function WithTotals(agents: seq<User>, byAgent: map<string, int>): (r: seq<Ranked>)
    ensures |r| == |agents|
    ensures forall i :: 0 <= i < |agents| ==> r[i] == Ranked(agents[i], Lookup(byAgent, agents[i].id))
  {
    if agents == [] then [] else [Ranked(agents[0], Lookup(byAgent, agents[0].id))] + WithTotals(agents[1..], byAgent)
  }

  /** The transactions query runs only when the agency has agents. */
  predicate QueriesTransactions(agents: seq<User>) {
    agents != []
  }

  /**
   * The leaderboard: every agency agent with their total, highest first,
   * cut to five; empty when the agency has no agent.
   */
  function Leaderboard(agents: seq<User>, txs: seq<Transaction>): seq<Ranked> {
    if !QueriesTransactions(agents) then []
    else
      var byAgent := ByAgent(AgentsValidated(txs, IdsOf(agents)));
      Slice(SortDesc(WithTotals(agents, byAgent), Total), 0, LeaderboardSize)
  }

  /**
   * At most five rows, highest total first, each an agency agent; the rows
   * are drawn from the one-row-per-agent list without repetition, so an
   * agent listed once in the agency appears at most once on the board.
   */
  lemma LeaderboardShape(agents: seq<User>, txs: seq<Transaction>)
    ensures var r := Leaderboard(agents, txs);
      |r| <= LeaderboardSize && |r| <= |agents|
      && SortedDesc(r, Total)
      && (forall i :: 0 <= i < |r| ==> r[i].agent in agents)
      && multiset(r) <= multiset(WithTotals(agents, ByAgent(AgentsValidated(txs, IdsOf(agents)))))
  {
    var r := Leaderboard(agents, txs);
    if QueriesTransactions(agents) {
      var byAgent := ByAgent(AgentsValidated(txs, IdsOf(agents)));
      var all := WithTotals(agents, byAgent);
      var sorted := SortDesc(all, Total);
      SlicePrefixSortedDesc(sorted, LeaderboardSize, Total);
      TakeFirst(sorted, LeaderboardSize);
      assert sorted == r + sorted[|r|..];
      assert multiset(sorted) == multiset(r) + multiset(sorted[|r|..]);
      forall i | 0 <= i < |r| ensures r[i].agent in agents {
        assert r[i] == sorted[i];
        assert sorted[i] in multiset(all);
        var j :| 0 <= j < |all| && all[j] == sorted[i];
      }
    }
  }

  /** The board is cut at five: it shows five rows, or one per agent when the agency has fewer. */
  lemma LeaderboardLength(agents: seq<User>, txs: seq<Transaction>)
    ensures |Leaderboard(agents, txs)| == if |agents| < LeaderboardSize then |agents| else LeaderboardSize
  {
    if QueriesTransactions(agents) {
      var sorted := SortDesc(WithTotals(agents, ByAgent(AgentsValidated(txs, IdsOf(agents)))), Total);
      TakeFirst(sorted, LeaderboardSize);
    }
  }

  /** An agent's total on the board is the sum of commissions over their validated transactions. */
  lemma LeaderboardTotals(agents: seq<User>, txs: seq<Transaction>, i: nat)
    requires i < |Leaderboard(agents, txs)| && Leaderboard(agents, txs)[i].agent.id != ""
    ensures var r := Leaderboard(agents, txs)[i];
      r.total == Sum(Filter(AgentsValidated(txs, IdsOf(agents)), OfAgent(r.agent.id)), TxCommission)
  {
    var j := BoardRowOfAgent(agents, txs, i);
    ByAgentTotal(AgentsValidated(txs, IdsOf(agents)), agents[j].id);
  }

  /** Every row of the board is the row of one of the agency's agents. */
  lemma BoardRowOfAgent(agents: seq<User>, txs: seq<Transaction>, i: nat) returns (j: nat)
    requires i < |Leaderboard(agents, txs)|
    ensures j < |agents|
    ensures Leaderboard(agents, txs)[i] == Ranked(agents[j], Lookup(ByAgent(AgentsValidated(txs, IdsOf(agents))), agents[j].id))
  {
    var all := WithTotals(agents, ByAgent(AgentsValidated(txs, IdsOf(agents))));
    var sorted := SortDesc(all, Total);
    TakeFirst(sorted, LeaderboardSize);
    assert Leaderboard(agents, txs)[i] == sorted[i];
    assert sorted[i] in multiset(sorted);
    assert sorted[i] in multiset(all);
    j :| 0 <= j < |all| && all[j] == sorted[i];
  }

  /** An agency agent left off the board has a total no larger than any listed one. */
  lemma LeaderboardIsTop(agents: seq<User>, txs: seq<Transaction>, i: nat, x: Ranked)
    requires QueriesTransactions(agents)
    requires x in WithTotals(agents, ByAgent(AgentsValidated(txs, IdsOf(agents))))
    requires i < |Leaderboard(agents, txs)| && x !in Leaderboard(agents, txs)
    ensures x.total <= Leaderboard(agents, txs)[i].total
  {
    var all := WithTotals(agents, ByAgent(AgentsValidated(txs, IdsOf(agents))));
    var sorted := SortDesc(all, Total);
    var r := Leaderboard(agents, txs);
    assert x in multiset(sorted);
    var j :| 0 <= j < |sorted| && sorted[j] == x;
    assert |r| == if |sorted| < LeaderboardSize then |sorted| else LeaderboardSize;
    assert r[i] == sorted[i];
  }

  predicate IsPersonalCommission(chefId: string, t: Transaction) {
    t.agentId == chefId && t.status == Validated && t.commissionGeneree > 0
  }

  /** The personal query: the chef's own validated transactions with a positive commission, newest first. */
  function PersonalCommissions(txs: seq<Transaction>, chefId: string): seq<Transaction> {
    SortDesc(Filter(txs, (t: Transaction) => IsPersonalCommission(chefId, t)), TxCreatedAt)
  }

  lemma PersonalCommissionsExact(txs: seq<Transaction>, chefId: string, t: Transaction)
    ensures SortedDesc(PersonalCommissions(txs, chefId), TxCreatedAt)
    ensures t in PersonalCommissions(txs, chefId) <==> t in txs && IsPersonalCommission(chefId, t)
  {
    var p := (t: Transaction) => IsPersonalCommission(chefId, t);
    FilterMember(txs, p, t);
    assert t in PersonalCommissions(txs, chefId) <==> t in multiset(Filter(txs, p));
  }

  /** The personal dues line: `commissions_perso_dues || 0`. */
  function PersonalDues(chef: User): (r: int)
    requires chef.ChefAgence?
    ensures chef.commissionsPersoDues.Some? ==> r == chef.commissionsPersoDues.value
    ensures chef.commissionsPersoDues.None? ==> r == 0
  {
    chef.commissionsPersoDues.GetOr(0)
  }
}
