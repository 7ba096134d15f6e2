/**
 * The administrator's agency page (`AdminManageAgencies`): each agency
 * joined with its chef, its number of agents and its monthly volume, a
 * search over agency and chef names, and eight cards to a page.
 */
module ManageAgencies {
  import opened Wrappers
  import opened Js
  import opened Lists
  import opened Domain

  const ItemsPerPage := 8

  /** One card: the agency, its chef if the profiles have one, its agent count and its volume. */
  datatype AgencyLine = AgencyLine(agency: Agency, chef: Option<User>, agentCount: nat, volume: int)

  /** `profiles.find(u => u.id === agency.chef_id)`: no profile matches a missing chef id. */
  function ChefOf(profiles: seq<User>, agency: Agency): Option<User> {
    Find(profiles, (u: User) => agency.chefId == Some(u.id))
  }

  /** `chef?.volume_agence_mois || 0` */
  function VolumeOf(chef: Option<User>): (v: int)
    ensures v != 0 ==> chef.Some? && chef.value.ChefAgence? && chef.value.volumeAgenceMois == Some(v)
    ensures chef.Some? && chef.value.ChefAgence? && chef.value.volumeAgenceMois.Some? ==> v == chef.value.volumeAgenceMois.value
  {
    if chef.Some? && chef.value.ChefAgence? then chef.value.volumeAgenceMois.GetOr(0) else 0
  }

  /** `agencyData` */
  function AgencyData(agencies: seq<Agency>, profiles: seq<User>): (r: seq<AgencyLine>)
    ensures |r| == |agencies|
    ensures forall i :: 0 <= i < |r| ==>
      r[i].agency == agencies[i] && r[i].chef == ChefOf(profiles, agencies[i])
      && r[i].agentCount == |AgencyAgents(profiles, agencies[i].id)|
      && r[i].volume == VolumeOf(r[i].chef)
  {
    if agencies == [] then []
    else
      var chef := ChefOf(profiles, agencies[0]);
      [AgencyLine(agencies[0], chef, |AgencyAgents(profiles, agencies[0].id)|, VolumeOf(chef))]
        + AgencyData(agencies[1..], profiles)
  }

  /** The chef shown is a profile with the agency's chef id; with unique ids, it is that profile. */
  lemma ChefJoin(profiles: seq<User>, agency: Agency, u: User)
    ensures ChefOf(profiles, agency).Some? ==>
      ChefOf(profiles, agency).value in profiles && agency.chefId == Some(ChefOf(profiles, agency).value.id)
    ensures ChefOf(profiles, agency).None? <==> forall p :: p in profiles ==> agency.chefId != Some(p.id)
    ensures UniqueIds(profiles) && u in profiles && agency.chefId == Some(u.id) ==> ChefOf(profiles, agency) == Some(u)
  {
    if UniqueIds(profiles) && u in profiles && agency.chefId == Some(u.id) {
      UserByIdFinds(profiles, u);
      assert ChefOf(profiles, agency) == UserById(profiles, u.id);
    }
  }

  /** The agents counted on a card are exactly the agent profiles attached to that agency. */
  lemma AgentCountExact(agencies: seq<Agency>, profiles: seq<User>, i: nat, u: User)
    requires i < |agencies|
    ensures AgencyData(agencies, profiles)[i].agentCount <= |profiles|
    ensures u in AgencyAgents(profiles, agencies[i].id) <==>
      u in profiles && RoleOf(u) == RoleAgent && u.agencyId == Some(agencies[i].id)
  {
    AgencyAgentsMember(profiles, agencies[i].id, u);
  }

  /** The agency's name, or its chef's, contains the term, ignoring case. */
  predicate LineMatches(term: string, line: AgencyLine) {
    ContainsIgnoringCase(line.agency.name, term)
    || (line.chef.Some? && ContainsIgnoringCase(line.chef.value.name, term))
  }

  /** `filteredAgencies`: everything for an empty term. */
  function Search(lines: seq<AgencyLine>, term: string): seq<AgencyLine> {
    if term == "" then lines else Filter(lines, (line: AgencyLine) => LineMatches(term, line))
  }

  /** A card is shown exactly when the term is empty or matches the agency's or the chef's name. */
  lemma SearchExact(lines: seq<AgencyLine>, term: string, line: AgencyLine)
    ensures line in Search(lines, term) <==> line in lines && (term == "" || LineMatches(term, line))
    ensures Search(lines, "") == lines
  {
    if term != "" {
      FilterMember(lines, (line: AgencyLine) => LineMatches(term, line), line);
    }
  }

  /** An agency without a chef is found by its own name only. */
  lemma ChefLessMatchesByName(lines: seq<AgencyLine>, term: string, line: AgencyLine)
    requires term != "" && line.chef.None?
    ensures line in Search(lines, term) <==> line in lines && ContainsIgnoringCase(line.agency.name, term)
  {
    SearchExact(lines, term, line);
  }

  /** `paginatedAgencies` */
  function Shown(lines: seq<AgencyLine>, v: SearchPager): seq<AgencyLine> {
    Page(Search(lines, v.searchTerm), v.currentPage, ItemsPerPage)
  }

  /** `totalPages` */
  function TotalPages(lines: seq<AgencyLine>, v: SearchPager): nat {
    PageCount(|Search(lines, v.searchTerm)|, ItemsPerPage)
  }

  /** Every page holds at most eight cards, taken in order from the search result. */
  lemma PageOfAgencies(lines: seq<AgencyLine>, v: SearchPager)
    requires v.currentPage >= 1
    ensures var found := Search(lines, v.searchTerm);
      var r := Shown(lines, v);
      |r| <= ItemsPerPage && forall j :: 0 <= j < |r| ==> (v.currentPage - 1) * ItemsPerPage + j < |found| && r[j] == found[(v.currentPage - 1) * ItemsPerPage + j]
  {
    PageSpec(Search(lines, v.searchTerm), v.currentPage, ItemsPerPage);
  }

  /** After a search the first eight matching cards are shown, in order, whatever page was open. */
  lemma SearchShowsFirstMatches(lines: seq<AgencyLine>, v: SearchPager, term: string)
    ensures var found := Search(lines, term);
      var r := Shown(lines, SearchChange(v, term));
      |r| == (if |found| < ItemsPerPage then |found| else ItemsPerPage)
      && forall j :: 0 <= j < |r| ==> r[j] == found[j]
  {
    var found := Search(lines, term);
    PageSpec(found, 1, ItemsPerPage);
    TakeFirst(found, ItemsPerPage);
  }
}
