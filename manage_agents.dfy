/**
 * The chef's agent page (`ChefManageAgents`): the agents of the chef's
 * agency, narrowed by a search box and a status select, six to a page,
 * with the agent count and the total balance.
 *
 * The search box is wired to a handler shared with the status filter
 * (`handleFilterChange`), which writes the typed text into both. The model
 * keeps that handler as written (`SharedFilterChange`, with lemmas that
 * exhibit its effect) beside the intended behaviour of the search box
 * (`SearchTyped`); the page state below has one method for each.
 */
module ManageAgents {
  import opened Wrappers
  import opened Js
  import opened Lists
  import opened Domain
  import SuspendUser

  const ItemsPerPage := 6
  const AllStatuses := "all"

  /** `myAgents`: agents whose agency id equals the chef's, absent ids included. */
  function MyAgents(profiles: seq<User>, chef: User): (r: seq<User>)
    requires chef.ChefAgence?
    ensures forall i :: 0 <= i < |r| ==> r[i].Agent? && r[i].agencyId == chef.agencyId
  {
    Filter(profiles, (u: User) => u.Agent? && u.agencyId == chef.agencyId)
  }

  /** For a chef with an agency these are that agency's agents; a chef without one sees the unattached agents. */
  lemma MyAgentsScope(profiles: seq<User>, chef: User, u: User)
    requires chef.ChefAgence?
    ensures chef.agencyId.Some? ==> MyAgents(profiles, chef) == AgencyAgents(profiles, chef.agencyId.value)
    ensures u in MyAgents(profiles, chef) <==> u in profiles && RoleOf(u) == RoleAgent && u.agencyId == chef.agencyId
  {
    FilterMember(profiles, (u: User) => u.Agent? && u.agencyId == chef.agencyId, u);
    if chef.agencyId.Some? {
      FilterCongruent(profiles, (u: User) => u.Agent? && u.agencyId == chef.agencyId,
                      (u: User) => u.Agent? && u.agencyId == Some(chef.agencyId.value));
    }
  }

  /** The search term is empty, or the name or the email contains it, ignoring case. */
  predicate MatchesSearch(term: string, a: User) {
    term == "" || ContainsIgnoringCase(a.name, term) || ContainsIgnoringCase(a.email, term)
  }

  /** The status filter is 'all', or the agent's status is exactly the filter. */
  predicate MatchesStatus(statusFilter: string, a: User)
    requires a.Agent?
  {
    statusFilter == AllStatuses || a.status == Some(statusFilter)
  }

  /** The page's state. */
  datatype Controls = Controls(searchTerm: string, statusFilter: string, currentPage: int)

  const InitialControls := Controls("", AllStatuses, 1)

  predicate Matches(c: Controls, a: User) {
    a.Agent? && MatchesSearch(c.searchTerm, a) && MatchesStatus(c.statusFilter, a)
  }

  /** `filteredAgents` */
  function Filtered(agents: seq<User>, c: Controls): seq<User> {
    Filter(agents, (a: User) => Matches(c, a))
  }

  lemma FilteredExact(agents: seq<User>, c: Controls, a: User)
    ensures a in Filtered(agents, c) <==> a in agents && a.Agent? && MatchesSearch(c.searchTerm, a) && MatchesStatus(c.statusFilter, a)
  {
    FilterMember(agents, (a: User) => Matches(c, a), a);
  }

  /** On arrival every agent of the chef is listed. */
  lemma InitialShowsAll(profiles: seq<User>, chef: User)
    requires chef.ChefAgence?
    ensures Filtered(MyAgents(profiles, chef), InitialControls) == MyAgents(profiles, chef)
  {
    FilterAll(MyAgents(profiles, chef), (a: User) => Matches(InitialControls, a));
  }

  /** `handleFilterChange` as written: the typed text becomes the search term and, 'all' when empty, the status filter. */
  function SharedFilterChange(c: Controls, value: string): (r: Controls)
    ensures r.searchTerm == value && r.currentPage == 1
    ensures value == "" ==> r.statusFilter == AllStatuses
    ensures value != "" ==> r.statusFilter == value
  {
    Controls(value, if value == "" then AllStatuses else value, 1)
  }

  /** Through the shared handler, any typed text other than 'all' lists only agents whose status is that text. */
  lemma SharedHandlerFiltersByText(agents: seq<User>, c: Controls, value: string, a: User)
    requires value != "" && value != AllStatuses
    requires a in Filtered(agents, SharedFilterChange(c, value))
    ensures a.Agent? && a.status == Some(value)
  {
    FilteredExact(agents, SharedFilterChange(c, value), a);
  }

  /** An active agent named "Alice" disappears when "alice" is typed, instead of being found. */
  lemma SharedHandlerHidesMatch()
    ensures var alice := Agent("agent_alice", "Alice", "alice", None, Some("AG001"), Some(0), Some("active"),
                               None, None, None, None, None);
      Filtered([alice], SharedFilterChange(InitialControls, "alice")) == []
      && Filtered([alice], SearchTyped(InitialControls, "alice")) == [alice]
  {
    var alice := Agent("agent_alice", "Alice", "alice", None, Some("AG001"), Some(0), Some("active"),
                       None, None, None, None, None);
    ContainsIgnoringCaseAtStart("Alice", "alice");
    assert !Matches(SharedFilterChange(InitialControls, "alice"), alice);
    assert Matches(SearchTyped(InitialControls, "alice"), alice);
  }

  /** The search box as intended: only the search term changes, and the list goes back to page 1. */
  function SearchTyped(c: Controls, value: string): (r: Controls)
    ensures r.searchTerm == value && r.statusFilter == c.statusFilter && r.currentPage == 1
  {
    Controls(value, c.statusFilter, 1)
  }

  /** The status select: only the status filter changes, and the list goes back to page 1. */
  function StatusChange(c: Controls, value: string): (r: Controls)
    ensures r.statusFilter == value && r.searchTerm == c.searchTerm && r.currentPage == 1
  {
    Controls(c.searchTerm, value, 1)
  }

  /** Searching keeps the chosen status: the agents listed are those matching both. */
  lemma SearchKeepsStatus(agents: seq<User>, c: Controls, value: string, a: User)
    ensures a in Filtered(agents, SearchTyped(c, value)) <==>
      a in agents && a.Agent? && MatchesSearch(value, a) && MatchesStatus(c.statusFilter, a)
  {
    FilteredExact(agents, SearchTyped(c, value), a);
  }

  /** `agent.solde || 0` */
  function SoldeOrZero(a: User): int {
    if a.Agent? && a.solde.Some? then a.solde.value else 0
  }

  /** `agencyStats.totalBalance` */
  function TotalBalance(agents: seq<User>): int {
    Sum(agents, SoldeOrZero)
  }

  /** The reduce adds each agent's balance, a missing one as 0. */
  lemma TotalBalanceSnoc(agents: seq<User>, a: User)
    requires a.Agent?
    ensures TotalBalance(agents + [a]) == TotalBalance(agents) + (if a.solde.Some? then a.solde.value else 0)
  {
    SumAppend(agents, [a], SoldeOrZero);
    assert Sum([a], SoldeOrZero) == Sum([], SoldeOrZero) + SoldeOrZero(a);
  }

  /** With no negative balance, the total is at least every agent's balance. */
  lemma TotalBalanceBounds(agents: seq<User>)
    requires forall i :: 0 <= i < |agents| ==> SoldeOrZero(agents[i]) >= 0
    ensures TotalBalance(agents) >= 0
    ensures forall i :: 0 <= i < |agents| ==> SoldeOrZero(agents[i]) <= TotalBalance(agents)
  {
    SumNonNegative(agents, SoldeOrZero);
  }

  /** `paginatedAgents` */
  function Shown(agents: seq<User>, c: Controls): seq<User> {
    Page(Filtered(agents, c), c.currentPage, ItemsPerPage)
  }

  function TotalPages(agents: seq<User>, c: Controls): nat {
    PageCount(|Filtered(agents, c)|, ItemsPerPage)
  }

  /** A page holds at most six agents, taken in order from the filtered list. */
  lemma PageOfAgents(agents: seq<User>, c: Controls)
    requires c.currentPage >= 1
    ensures var r := Shown(agents, c);
      |r| <= ItemsPerPage && forall j :: 0 <= j < |r| ==> (c.currentPage - 1) * ItemsPerPage + j < |Filtered(agents, c)| && r[j] == Filtered(agents, c)[(c.currentPage - 1) * ItemsPerPage + j]
  {
    PageSpec(Filtered(agents, c), c.currentPage, ItemsPerPage);
  }

  /** The card's badge. */
  function StatusBadge(a: User): (r: string)
    requires a.Agent?
    ensures r == "Actif" <==> a.status == Some("active")
  {
    if a.status == Some("active") then "Actif" else "Suspendu"
  }

  /** The third button's label. */
  function SuspendLabel(a: User): (r: string)
    requires a.Agent?
    ensures r == "Suspendre" || r == "Activer"
  {
    if a.status == Some("active") then "Suspendre" else "Activer"
  }

  /** The label announces what the suspension dialog it opens will do. */
  lemma LabelMatchesDialog(a: User)
    requires a.Agent?
    ensures SuspendLabel(a) == "Suspendre" <==> SuspendUser.IsSuspending(a.status)
  {
  }

  /** The page state and its three controls. */
  class AgentsPage {
    var searchTerm: string
    var statusFilter: string
    var currentPage: int

    function State(): Controls
      reads this
    {
      Controls(searchTerm, statusFilter, currentPage)
    }

    constructor ()
      ensures State() == InitialControls
    {
      searchTerm, statusFilter, currentPage := "", AllStatuses, 1;
    }

    /** Typing in the search box as wired: its `onChange` is the shared handler, which also sets the status filter. */
    method SearchInput(value: string)
      modifies this
      ensures State() == SharedFilterChange(old(State()), value)
    {
      searchTerm, statusFilter, currentPage := value, if value == "" then AllStatuses else value, 1;
    }

    /** Typing in the search box with the intended behaviour: the search term alone changes and the page resets. */
    method IntendedSearchInput(value: string)
      modifies this
      ensures State() == SearchTyped(old(State()), value)
    {
      searchTerm, currentPage := value, 1;
    }

    /** The status select's `onChange`. */
    method StatusSelect(value: string)
      modifies this
      ensures State() == StatusChange(old(State()), value)
    {
      statusFilter, currentPage := value, 1;
    }

    /** The pager's `onPageChange`. */
    method PageChange(p: int)
      modifies this
      ensures State() == old(State()).(currentPage := p)
    {
      currentPage := p;
    }
  }
}
