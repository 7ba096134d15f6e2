/**
 * The chef's view of agents' recharge requests (`ChefManageAgentRecharges`):
 * this chef's requests newest first, split into pending and history, paged
 * by 6 and by 10, with the history's reason column and the pending cards'
 * approve and reject payloads.
 */
module AgentRecharges {
  import opened Wrappers
  import opened Lists
  import opened Domain

  const PendingStatus := "En attente Chef Agence"
  const PendingPerPage: nat := 6
  const HistoryPerPage: nat := 10

  function CreatedAt(r: AgentRechargeRequest): int { r.createdAt }

  predicate IsPending(r: AgentRechargeRequest) { r.status == PendingStatus }

  /** This chef's requests, newest first (a sorted copy: the input list keeps its order). */
  function ChefRecharges(all: seq<AgentRechargeRequest>, chefId: string): seq<AgentRechargeRequest> {
    SortDesc(Filter(all, (r: AgentRechargeRequest) => r.chefAgenceId == chefId), CreatedAt)
  }

  function Pending(all: seq<AgentRechargeRequest>, chefId: string): seq<AgentRechargeRequest> {
    Filter(ChefRecharges(all, chefId), IsPending)
  }

  function History(all: seq<AgentRechargeRequest>, chefId: string): seq<AgentRechargeRequest> {
    Filter(ChefRecharges(all, chefId), (r: AgentRechargeRequest) => !IsPending(r))
  }

  predicate OfChef(r: AgentRechargeRequest, chefId: string) { r.chefAgenceId == chefId }

  /** A request is in this chef's list exactly when it is one of the chef's requests. */
  lemma ChefRechargesMember(all: seq<AgentRechargeRequest>, chefId: string, r: AgentRechargeRequest)
    ensures r in ChefRecharges(all, chefId) <==> r in all && OfChef(r, chefId)
  {
    var mine := Filter(all, (r: AgentRechargeRequest) => r.chefAgenceId == chefId);
    FilterMember(all, (r: AgentRechargeRequest) => r.chefAgenceId == chefId, r);
    assert r in ChefRecharges(all, chefId) <==> r in multiset(mine);
  }

  /** Pending and history hold exactly this chef's requests with, resp. without, the pending status. */
  lemma SplitMember(all: seq<AgentRechargeRequest>, chefId: string, r: AgentRechargeRequest)
    ensures r in Pending(all, chefId) <==> r in all && OfChef(r, chefId) && IsPending(r)
    ensures r in History(all, chefId) <==> r in all && OfChef(r, chefId) && !IsPending(r)
  {
    ChefRechargesMember(all, chefId, r);
    FilterMember(ChefRecharges(all, chefId), IsPending, r);
    FilterMember(ChefRecharges(all, chefId), (r: AgentRechargeRequest) => !IsPending(r), r);
  }

  /** Together the two lists are this chef's requests, each as often as it occurs. */
  lemma SplitMultiset(all: seq<AgentRechargeRequest>, chefId: string)
    ensures multiset(Pending(all, chefId)) + multiset(History(all, chefId))
            == multiset(Filter(all, (r: AgentRechargeRequest) => r.chefAgenceId == chefId))
  {
    FilterPartition(ChefRecharges(all, chefId), IsPending, (r: AgentRechargeRequest) => !IsPending(r));
  }

  /** Both lists are newest first. */
  lemma SplitSorted(all: seq<AgentRechargeRequest>, chefId: string)
    ensures SortedDesc(Pending(all, chefId), CreatedAt) && SortedDesc(History(all, chefId), CreatedAt)
  {
    FilterSortedDesc(ChefRecharges(all, chefId), IsPending, CreatedAt);
    FilterSortedDesc(ChefRecharges(all, chefId), (r: AgentRechargeRequest) => !IsPending(r), CreatedAt);
  }

  /** Pending page p shows pending requests from (p - 1) * 6 on, at most 6, and is empty exactly past the last page. */
  lemma PendingPages(all: seq<AgentRechargeRequest>, chefId: string, p: int)
    requires p >= 1
    ensures var pend := Pending(all, chefId);
      var r := Page(pend, p, PendingPerPage);
      |r| <= 6 && (forall j :: 0 <= j < |r| ==> (p - 1) * 6 + j < |pend| && r[j] == pend[(p - 1) * 6 + j])
      && (r == [] <==> p > PageCount(|pend|, 6))
  {
    PageSpec(Pending(all, chefId), p, PendingPerPage);
  }

  /** History page p shows requests from (p - 1) * 10 on, at most 10, and is empty exactly past the last page. */
  lemma HistoryPages(all: seq<AgentRechargeRequest>, chefId: string, p: int)
    requires p >= 1
    ensures var hist := History(all, chefId);
      var r := Page(hist, p, HistoryPerPage);
      |r| <= 10 && (forall j :: 0 <= j < |r| ==> (p - 1) * 10 + j < |hist| && r[j] == hist[(p - 1) * 10 + j])
      && (r == [] <==> p > PageCount(|hist|, 10))
  {
    PageSpec(History(all, chefId), p, HistoryPerPage);
  }

  /** The history's reason cell: the rejection reason for 'Rejetée', otherwise the motive; '-' when that is empty or absent. */
  function ReasonCell(r: AgentRechargeRequest): (c: string)
    ensures r.status == "Rejetée" && Present(r.rejectionReason) ==> c == r.rejectionReason.value
    ensures r.status != "Rejetée" && Present(r.motif) ==> c == r.motif.value
    ensures c == "-" <==>
      (if r.status == "Rejetée" then !Present(r.rejectionReason) || r.rejectionReason.value == "-"
       else !Present(r.motif) || r.motif.value == "-")
  {
    var cell := if r.status == "Rejetée" then r.rejectionReason else if Present(r.motif) then r.motif else Some("-");
    if Present(cell) then cell.value else "-"
  }

  /** The history's agent cell: the user's name, or 'N/A' when unknown or nameless. */
  function AgentNameCell(r: AgentRechargeRequest, users: seq<User>): (c: string)
    ensures c == "N/A" <==> UserById(users, r.agentId).None? || UserById(users, r.agentId).value.name in {"", "N/A"}
    ensures c != "N/A" ==> UserById(users, r.agentId).Some? && c == UserById(users, r.agentId).value.name
  {
    var u := UserById(users, r.agentId);
    if u.Some? && u.value.name != "" then u.value.name else "N/A"
  }

  /** A pending card: approving hands over the request and its agent, rejecting the request alone. */
  datatype Card = Card(approve: (AgentRechargeRequest, User), reject: AgentRechargeRequest)

  /** No card is drawn for a request whose agent is unknown. */
  function PendingCard(r: AgentRechargeRequest, users: seq<User>): (c: Option<Card>)
    ensures c.None? <==> forall i :: 0 <= i < |users| ==> users[i].id != r.agentId
    ensures c.Some? ==> c.value.approve.0 == r && c.value.reject == r && c.value.approve.1.id == r.agentId
                        && c.value.approve.1 in users
  {
    var u := UserById(users, r.agentId);
    if u.Some? then Some(Card((r, u.value), r)) else None
  }

  /** The pending tab shows a grid only when something is pending; otherwise the 'nothing pending' message. */
  datatype PendingView = NothingPending | Grid(cards: seq<Option<Card>>, totalPages: nat)

  function PendingTab(all: seq<AgentRechargeRequest>, chefId: string, users: seq<User>, page: int): (v: PendingView)
    ensures v.NothingPending? <==> Pending(all, chefId) == []
    ensures v.Grid? ==> |v.cards| == |Page(Pending(all, chefId), page, PendingPerPage)|
                        && v.totalPages == PageCount(|Pending(all, chefId)|, PendingPerPage)
    ensures v.Grid? ==> v.cards == PendingCards(Page(Pending(all, chefId), page, PendingPerPage), users)
  {
    var pend := Pending(all, chefId);
    if pend == [] then NothingPending
    else
      var shown := Page(pend, page, PendingPerPage);
      Grid(PendingCards(shown, users), PageCount(|pend|, PendingPerPage))
  }

  /** One card slot per shown request, in order: a card for the request exactly when its agent is known. */
  function PendingCards(shown: seq<AgentRechargeRequest>, users: seq<User>): (r: seq<Option<Card>>)
    ensures |r| == |shown|
    ensures forall i :: 0 <= i < |r| ==>
      (r[i].None? <==> UserById(users, shown[i].agentId).None?)
      && (r[i].Some? ==> r[i].value.reject == shown[i] && r[i].value.approve == (shown[i], UserById(users, shown[i].agentId).value))
  {
    seq(|shown|, i requires 0 <= i < |shown| => PendingCard(shown[i], users))
  }
}
