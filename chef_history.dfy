/**
 * The chef's operation history (`ChefAgenceHistory`): the transactions of
 * the agency's agents and of the chef, narrowed by three selects and a
 * search box, shown ten per page with one expandable row.
 */
module ChefHistory {
  import opened Wrappers
  import opened Js
  import opened Lists
  import opened Domain

  const All := "all"
  const ItemsPerPage := 10

  /** `agentIds`: the agents' ids with the chef's own pushed at the end. */
  function AgentIds(agents: seq<User>, chefId: string): (r: seq<string>)
    ensures forall x :: x in r <==> x == chefId || exists a :: a in agents && a.id == x
  {
    var ids := UserIds(agents);
    assert forall x :: x in ids <==> exists a :: a in agents && a.id == x by {
      forall x | x in ids ensures exists a :: a in agents && a.id == x {
        var i :| 0 <= i < |ids| && ids[i] == x;
        assert agents[i] in agents;
      }
      forall x | exists a :: a in agents && a.id == x ensures x in ids {
        var a :| a in agents && a.id == x;
        var i :| 0 <= i < |agents| && agents[i] == a;
        assert ids[i] == x;
      }
    }
    ids + [chefId]
  }

  /**
   * The loaded history: nothing without an agency; otherwise the
   * transactions of the agency's agents and of the chef, newest first.
   */
  function History(chef: User, profiles: seq<User>, txs: seq<Transaction>): seq<Transaction>
    requires chef.ChefAgence?
  {
    if !Present(chef.agencyId) then []
    else
      var ids := AgentIds(AgencyAgents(profiles, chef.agencyId.value), chef.id);
      SortDesc(Filter(txs, (t: Transaction) => t.agentId in ids), TxCreatedAt)
  }

  lemma HistoryScope(chef: User, profiles: seq<User>, txs: seq<Transaction>, t: Transaction)
    requires chef.ChefAgence?
    ensures !Present(chef.agencyId) ==> History(chef, profiles, txs) == []
    ensures Present(chef.agencyId) ==>
      (t in History(chef, profiles, txs) <==>
        t in txs && (t.agentId == chef.id ||
                     exists a :: a in profiles && a.Agent? && a.agencyId == chef.agencyId && a.id == t.agentId))
    ensures SortedDesc(History(chef, profiles, txs), TxCreatedAt)
  {
    if Present(chef.agencyId) {
      var agents := AgencyAgents(profiles, chef.agencyId.value);
      var ids := AgentIds(agents, chef.id);
      var p := (t: Transaction) => t.agentId in ids;
      FilterMember(txs, p, t);
      assert t in History(chef, profiles, txs) <==> t in multiset(Filter(txs, p));
      forall a ensures a in agents <==> a in profiles && a.Agent? && a.agencyId == chef.agencyId {
        AgencyAgentsMember(profiles, chef.agencyId.value, a);
      }
    }
  }

  /** The four filter controls, by their `name` attribute. */
  datatype Filters = Filters(agentId: string, opTypeId: string, status: string, searchTerm: string)

  const InitialFilters := Filters(All, All, All, "")

  datatype FilterKey = AgentIdKey | OpTypeIdKey | StatusKey | SearchTermKey

  /** `{ ...prev, [e.target.name]: e.target.value }` */
  function SetFilter(f: Filters, key: FilterKey, value: string): (r: Filters)
    ensures key == AgentIdKey ==> r == f.(agentId := value)
    ensures key == OpTypeIdKey ==> r == f.(opTypeId := value)
    ensures key == StatusKey ==> r == f.(status := value)
    ensures key == SearchTermKey ==> r == f.(searchTerm := value)
  {
    match key
    case AgentIdKey => f.(agentId := value)
    case OpTypeIdKey => f.(opTypeId := value)
    case StatusKey => f.(status := value)
    case SearchTermKey => f.(searchTerm := value)
  }

  /** The row's agent: one of the chef's agents, or the chef for the chef's own transactions. */
  function AgentOf(myAgents: seq<User>, chef: User, t: Transaction): Option<User> {
    var found := Find(myAgents, (a: User) => a.id == t.agentId);
    if found.Some? then found else if t.agentId == chef.id then Some(chef) else None
  }

  function OpTypeOf(opTypes: seq<OperationType>, t: Transaction): Option<OperationType> {
    Find(opTypes, (ot: OperationType) => ot.id == t.opTypeId)
  }

  /** `matchesSearch`: the id, the agent's name or the type's name contains the term, ignoring case. */
  predicate MatchesSearch(term: string, t: Transaction, agent: Option<User>, opType: Option<OperationType>) {
    term == "" || ContainsIgnoringCase(t.id, term)
    || (agent.Some? && ContainsIgnoringCase(agent.value.name, term))
    || (opType.Some? && ContainsIgnoringCase(opType.value.name, term))
  }

  predicate Matches(f: Filters, myAgents: seq<User>, chef: User, opTypes: seq<OperationType>, t: Transaction) {
    (f.agentId == All || t.agentId == f.agentId)
    && (f.opTypeId == All || t.opTypeId == f.opTypeId)
    && (f.status == All || t.status == f.status)
    && MatchesSearch(f.searchTerm, t, AgentOf(myAgents, chef, t), OpTypeOf(opTypes, t))
  }

  /** `filteredTransactions` */
  function Filtered(txs: seq<Transaction>, f: Filters, myAgents: seq<User>, chef: User, opTypes: seq<OperationType>): seq<Transaction> {
    Filter(txs, (t: Transaction) => Matches(f, myAgents, chef, opTypes, t))
  }

  /** A transaction is shown exactly when it passes all four filters; the order is kept. */
  lemma FilteredExact(txs: seq<Transaction>, f: Filters, myAgents: seq<User>, chef: User, opTypes: seq<OperationType>, t: Transaction)
    ensures t in Filtered(txs, f, myAgents, chef, opTypes) <==> t in txs && Matches(f, myAgents, chef, opTypes, t)
  {
    FilterMember(txs, (t: Transaction) => Matches(f, myAgents, chef, opTypes, t), t);
  }

  /** With every select on 'all' and an empty search, the whole history is shown. */
  lemma InitialFiltersKeepAll(txs: seq<Transaction>, myAgents: seq<User>, chef: User, opTypes: seq<OperationType>)
    ensures Filtered(txs, InitialFilters, myAgents, chef, opTypes) == txs
  {
    FilterAll(txs, (t: Transaction) => Matches(InitialFilters, myAgents, chef, opTypes, t));
  }

  /** The search ignores case: a term and its lower-cased form select the same rows. */
  lemma SearchIgnoresCase(term: string, t: Transaction, agent: Option<User>, opType: Option<OperationType>)
    ensures MatchesSearch(term, t, agent, opType) <==> MatchesSearch(Lower(term), t, agent, opType)
  {
    LowerIdempotent(term);
    if term != "" {
      assert |Lower(term)| == |term|;
    }
  }

  /** `paginatedTransactions`: page p holds rows (p-1)*10 up to p*10 of the filtered list. */
  lemma PageOfHistory(filtered: seq<Transaction>, page: int)
    requires page >= 1
    ensures var r := Page(filtered, page, ItemsPerPage);
      |r| <= ItemsPerPage && (forall j :: 0 <= j < |r| ==> (page - 1) * ItemsPerPage + j < |filtered| && r[j] == filtered[(page - 1) * ItemsPerPage + j])
  {
    PageSpec(filtered, page, ItemsPerPage);
  }

  class HistoryView {
    var filters: Filters
    var expandedRowId: Option<string>
    var currentPage: int

    constructor ()
      ensures filters == InitialFilters && expandedRowId.None? && currentPage == 1
    {
      filters, expandedRowId, currentPage := InitialFilters, None, 1;
    }

    /** `handleFilterChange`: one control's value, then back to the first page. */
    method FilterChange(key: FilterKey, value: string)
      modifies this
      ensures filters == SetFilter(old(filters), key, value) && currentPage == 1
      ensures expandedRowId == old(expandedRowId)
    {
      filters := SetFilter(filters, key, value);
      currentPage := 1;
    }

    /** A click on a row. */
    method RowToggle(id: string)
      modifies this
      ensures expandedRowId == Toggle(old(expandedRowId), id)
      ensures filters == old(filters) && currentPage == old(currentPage)
    {
      expandedRowId := Toggle(expandedRowId, id);
    }

    /** The pager's `onPageChange` sets the page and nothing else. */
    method PageChange(p: int)
      modifies this
      ensures currentPage == p && filters == old(filters) && expandedRowId == old(expandedRowId)
    {
      currentPage := p;
    }
  }
}
