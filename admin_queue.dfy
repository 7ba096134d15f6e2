/**
 * The administrators' task queue (`AdminQueue`): pending transactions and open
 * support requests, split into three views, with buttons gated by who holds
 * the item, a click dispatcher that turns a button into an `assignTask`
 * payload (or a modal, or an alert), and one page counter per view.
 */
module AdminQueue {
  import opened Wrappers
  import opened Js
  import opened Lists
  import opened Domain

  /** A queue entry: a transaction, or a request (the only kind with `demandeur_id`). */
  datatype Item = TxItem(tx: Transaction) | ReqItem(req: Request) {
    predicate IsRequest() { ReqItem? }

    function Id(): string {
      match this
      case TxItem(t) => t.id
      case ReqItem(r) => r.id
    }

    function AssignedTo(): Option<string> {
      match this
      case TxItem(t) => t.assignedTo
      case ReqItem(r) => r.assignedTo
    }
  }

  // ------------------------------------------------------------ the inputs

  /** The transactions the validation page loads: those still awaiting a decision. */
  predicate AwaitingValidation(t: Transaction) {
    t.status == "En attente de validation" || t.status == "Assignée (validation en cours)"
  }

  /** The requests the request page loads: those neither processed nor rejected. */
  predicate OpenRequest(r: Request) {
    r.status != "Traité" && r.status != "Rejeté"
  }

  predicate InQueue(it: Item) {
    match it
    case TxItem(t) => AwaitingValidation(t)
    case ReqItem(r) => OpenRequest(r)
  }

  predicate QueueItems(items: seq<Item>) {
    forall i :: 0 <= i < |items| ==> InQueue(items[i])
  }

  // ------------------------------------------------------------- the views

  datatype Tab = Unassigned | AssignedToMe | All

  const ItemsPerPage: nat := 5

  /** `!item.assigned_to`: no assignee, or the empty string. */
  predicate IsUnassigned(it: Item) { !Present(it.AssignedTo()) }

  predicate IsAssignedTo(it: Item, viewer: string) { it.AssignedTo() == Some(viewer) }

  /** `filterItems(tab)` */
  function FilterItems(items: seq<Item>, tab: Tab, viewer: string): seq<Item> {
    match tab
    case Unassigned => Filter(items, (it: Item) => IsUnassigned(it))
    case AssignedToMe => Filter(items, (it: Item) => IsAssignedTo(it, viewer))
    case All => items
  }

  /**
   * The unassigned view holds exactly the items without an assignee, the
   * assigned-to-me view exactly those held by the viewer, and the 'all' view
   * is the list itself.
   */
  lemma ViewsExact(items: seq<Item>, viewer: string, x: Item)
    ensures x in FilterItems(items, Unassigned, viewer) <==> x in items && IsUnassigned(x)
    ensures x in FilterItems(items, AssignedToMe, viewer) <==> x in items && IsAssignedTo(x, viewer)
    ensures FilterItems(items, All, viewer) == items
  {
    FilterMember(items, (it: Item) => IsUnassigned(it), x);
    FilterMember(items, (it: Item) => IsAssignedTo(it, viewer), x);
  }

  /**
   * For a viewer with a non-empty id no item is in both the unassigned and the
   * assigned-to-me view, so the two tab counts add up to at most the list length.
   */
  lemma ViewsDisjoint(items: seq<Item>, viewer: string)
    requires viewer != ""
    ensures forall x :: x in FilterItems(items, Unassigned, viewer) ==> x !in FilterItems(items, AssignedToMe, viewer)
    ensures |FilterItems(items, Unassigned, viewer)| + |FilterItems(items, AssignedToMe, viewer)| <= |items|
  {
    forall x | x in FilterItems(items, Unassigned, viewer)
      ensures x !in FilterItems(items, AssignedToMe, viewer)
    {
      ViewsExact(items, viewer, x);
    }
    CountDisjoint(items, (it: Item) => IsUnassigned(it), (it: Item) => IsAssignedTo(it, viewer));
  }

  /** An empty viewer id puts an item assigned to '' in both views (the reason for the condition above). */
  lemma EmptyViewerOverlap(it: Item)
    requires it.AssignedTo() == Some("")
    ensures it in FilterItems([it], Unassigned, "") && it in FilterItems([it], AssignedToMe, "")
  {
    ViewsExact([it], "", it);
  }

  /** Every view of a queue is again a queue: views only drop items. */
  lemma ViewsStayInQueue(items: seq<Item>, tab: Tab, viewer: string)
    requires QueueItems(items)
    ensures QueueItems(FilterItems(items, tab, viewer))
  {
    var v := FilterItems(items, tab, viewer);
    forall i | 0 <= i < |v| ensures InQueue(v[i]) {
      ViewsExact(items, viewer, v[i]);
    }
  }

  /** The tab buttons shown: 'all' only to the general administrator. */
  function VisibleTabs(isAdminGeneral: bool): (r: seq<Tab>)
    ensures Unassigned in r && AssignedToMe in r
    ensures All in r <==> isAdminGeneral
  {
    [Unassigned, AssignedToMe] + (if isAdminGeneral then [All] else [])
  }

  /** The queue rendered under the tabs: none when the active tab is 'all' and the viewer is not the general administrator. */
  function RenderedView(items: seq<Item>, active: Tab, viewer: string, isAdminGeneral: bool): (r: Option<seq<Item>>)
    ensures r.None? <==> active == All && !isAdminGeneral
    ensures r.Some? ==> r.value == FilterItems(items, active, viewer)
  {
    if active == All && !isAdminGeneral then None else Some(FilterItems(items, active, viewer))
  }

  // ---------------------------------------------------------- the buttons

  datatype ActionKind = ViewProof | AssignSelf | AssignOther | ProcessRequest | Validate | Reject | Unassign

  /** The `data-action` attribute of each kind of button. */
  function ActionName(k: ActionKind): string {
    match k
    case ViewProof => "viewProof"
    case AssignSelf => "assign-self"
    case AssignOther => "assign-other"
    case ProcessRequest => "process-request"
    case Validate => "validate"
    case Reject => "reject"
    case Unassign => "unassign"
  }

  /** A rendered action button: its kind, caption and `data-id` / `data-url` attributes. */
  datatype Button = Button(kind: ActionKind, caption: string, dataId: Option<string>, dataUrl: Option<string>)

  function ItemButton(k: ActionKind, caption: string, it: Item): Button {
    Button(k, caption, Some(it.Id()), None)
  }

  /** The proof button: on transactions with a proof URL. */
  function ProofButtons(it: Item): seq<Button> {
    if it.TxItem? && Present(it.tx.proofUrl) then [Button(ViewProof, "Voir Preuve", None, it.tx.proofUrl)] else []
  }

  /** The claim buttons of an unassigned item. */
  function ClaimButtons(it: Item, isAdminGeneral: bool): seq<Button> {
    if IsUnassigned(it) then
      [ItemButton(AssignSelf, "S'assigner", it)] + (if isAdminGeneral then [ItemButton(AssignOther, "Assigner", it)] else [])
    else []
  }

  /** The buttons of the item's holder. */
  function HolderButtons(it: Item, viewer: string): seq<Button> {
    if !IsAssignedTo(it, viewer) then []
    else if it.IsRequest() then
      [ItemButton(ProcessRequest, "Traiter la Requête", it), ItemButton(Unassign, "Libérer", it)]
    else
      [ItemButton(Validate, "Valider", it), ItemButton(Reject, "Rejeter", it), ItemButton(Unassign, "Libérer", it)]
  }

  /** The general administrator's reassign button on an item held by someone else. */
  function ReassignButtons(it: Item, viewer: string, isAdminGeneral: bool): seq<Button> {
    if Present(it.AssignedTo()) && !IsAssignedTo(it, viewer) && isAdminGeneral then
      [ItemButton(AssignOther, "Réassigner", it)]
    else []
  }

  /** The buttons of an expanded card, in the order they are rendered. */
  function Buttons(it: Item, viewer: string, isAdminGeneral: bool): seq<Button> {
    ProofButtons(it) + ClaimButtons(it, isAdminGeneral) + HolderButtons(it, viewer)
    + ReassignButtons(it, viewer, isAdminGeneral)
  }

  predicate HasKind(bs: seq<Button>, k: ActionKind) {
    exists i :: 0 <= i < |bs| && bs[i].kind == k
  }

  predicate Offers(it: Item, viewer: string, isAdminGeneral: bool, k: ActionKind) {
    HasKind(Buttons(it, viewer, isAdminGeneral), k)
  }

  /** When each kind of button is offered, stated per kind rather than in rendering order. */
  predicate OfferRule(k: ActionKind, it: Item, viewer: string, isAdminGeneral: bool) {
    match k
    case ViewProof => it.TxItem? && Present(it.tx.proofUrl)
    case AssignSelf => IsUnassigned(it)
    case AssignOther => isAdminGeneral && (IsUnassigned(it) || !IsAssignedTo(it, viewer))
    case ProcessRequest => IsAssignedTo(it, viewer) && it.IsRequest()
    case Validate => IsAssignedTo(it, viewer) && !it.IsRequest()
    case Reject => IsAssignedTo(it, viewer) && !it.IsRequest()
    case Unassign => IsAssignedTo(it, viewer)
  }

  lemma HasKindAppend(a: seq<Button>, b: seq<Button>, k: ActionKind)
    ensures HasKind(a + b, k) <==> HasKind(a, k) || HasKind(b, k)
  {
    if HasKind(a + b, k) {
      var i :| 0 <= i < |a + b| && (a + b)[i].kind == k;
      if i >= |a| { assert b[i - |a|].kind == k; }
    }
    if HasKind(a, k) {
      var i :| 0 <= i < |a| && a[i].kind == k;
      assert (a + b)[i].kind == k;
    }
    if HasKind(b, k) {
      var i :| 0 <= i < |b| && b[i].kind == k;
      assert (a + b)[|a| + i].kind == k;
    }
  }

  lemma ProofButtonsKinds(it: Item, k: ActionKind)
    ensures HasKind(ProofButtons(it), k) <==> k == ViewProof && it.TxItem? && Present(it.tx.proofUrl)
  {
    if k == ViewProof && it.TxItem? && Present(it.tx.proofUrl) { assert ProofButtons(it)[0].kind == k; }
  }

  lemma ClaimButtonsKinds(it: Item, isAdminGeneral: bool, k: ActionKind)
    ensures HasKind(ClaimButtons(it, isAdminGeneral), k) <==>
      IsUnassigned(it) && (k == AssignSelf || (k == AssignOther && isAdminGeneral))
  {
    var bs := ClaimButtons(it, isAdminGeneral);
    if IsUnassigned(it) && k == AssignSelf { assert bs[0].kind == k; }
    if IsUnassigned(it) && k == AssignOther && isAdminGeneral { assert bs[1].kind == k; }
  }

  lemma HolderButtonsKinds(it: Item, viewer: string, k: ActionKind)
    ensures HasKind(HolderButtons(it, viewer), k) <==>
      IsAssignedTo(it, viewer)
      && (k == Unassign || (it.IsRequest() && k == ProcessRequest) || (!it.IsRequest() && (k == Validate || k == Reject)))
  {
    var bs := HolderButtons(it, viewer);
    if IsAssignedTo(it, viewer) {
      if it.IsRequest() {
        if k == ProcessRequest { assert bs[0].kind == k; }
        if k == Unassign { assert bs[1].kind == k; }
      } else {
        if k == Validate { assert bs[0].kind == k; }
        if k == Reject { assert bs[1].kind == k; }
        if k == Unassign { assert bs[2].kind == k; }
      }
    }
  }

  lemma ReassignButtonsKinds(it: Item, viewer: string, isAdminGeneral: bool, k: ActionKind)
    ensures HasKind(ReassignButtons(it, viewer, isAdminGeneral), k) <==>
      k == AssignOther && Present(it.AssignedTo()) && !IsAssignedTo(it, viewer) && isAdminGeneral
  {
    if k == AssignOther && Present(it.AssignedTo()) && !IsAssignedTo(it, viewer) && isAdminGeneral {
      assert ReassignButtons(it, viewer, isAdminGeneral)[0].kind == k;
    }
  }

  /**
   * A card offers a kind of button exactly when its rule allows: the proof
   * button on transactions with a proof; self-assignment on unassigned items;
   * assignment to someone else only for the general administrator, on items
   * the viewer does not hold; validate and reject (transactions), process
   * (requests) and release only to the item's holder.
   */
  lemma {:induction false} OfferRuleExact(it: Item, viewer: string, isAdminGeneral: bool, k: ActionKind)
    ensures Offers(it, viewer, isAdminGeneral, k) <==> OfferRule(k, it, viewer, isAdminGeneral)
  {
    var p, c, h, r := ProofButtons(it), ClaimButtons(it, isAdminGeneral), HolderButtons(it, viewer),
                      ReassignButtons(it, viewer, isAdminGeneral);
    HasKindAppend(p, c, k);
    HasKindAppend(p + c, h, k);
    HasKindAppend(p + c + h, r, k);
    ProofButtonsKinds(it, k);
    ClaimButtonsKinds(it, isAdminGeneral, k);
    HolderButtonsKinds(it, viewer, k);
    ReassignButtonsKinds(it, viewer, isAdminGeneral, k);
  }

  /** 'Réassigner' is the caption exactly on items held by another user, for the general administrator. */
  lemma ReassignCaption(it: Item, viewer: string, isAdminGeneral: bool)
    ensures (exists b :: b in Buttons(it, viewer, isAdminGeneral) && b.caption == "Réassigner")
            <==> isAdminGeneral && Present(it.AssignedTo()) && !IsAssignedTo(it, viewer)
  {
    var p, c, h, r := ProofButtons(it), ClaimButtons(it, isAdminGeneral), HolderButtons(it, viewer),
                      ReassignButtons(it, viewer, isAdminGeneral);
    assert Buttons(it, viewer, isAdminGeneral) == p + c + h + r;
    if isAdminGeneral && Present(it.AssignedTo()) && !IsAssignedTo(it, viewer) {
      assert r[0] in p + c + h + r;
    }
  }

  /** Every button but the proof one carries the item's id and no URL; the proof button carries the proof URL. */
  lemma ButtonAttributes(it: Item, viewer: string, isAdminGeneral: bool, b: Button)
    requires b in Buttons(it, viewer, isAdminGeneral)
    ensures b.kind == ViewProof ==> it.TxItem? && Present(it.tx.proofUrl) && b.dataUrl == it.tx.proofUrl
    ensures b.kind != ViewProof ==> b.dataId == Some(it.Id()) && b.dataUrl == None
  {
    var p, c, h, r := ProofButtons(it), ClaimButtons(it, isAdminGeneral), HolderButtons(it, viewer),
                      ReassignButtons(it, viewer, isAdminGeneral);
    assert b in p || b in c || b in h || b in r;
  }

  // ------------------------------------------------------- click dispatch

  /** The attributes of the nearest `button[data-action]` around a click (`null` when absent). */
  datatype Target = Target(action: Option<string>, id: Option<string>, url: Option<string>)

  function TargetOf(b: Button): Target {
    Target(Some(ActionName(b.kind)), b.dataId, b.dataUrl)
  }

  /** `{ id, type }`: the table that holds the item. */
  datatype TaskRef = TaskRef(id: string, table: string)

  /** What a click asks the application (or the browser) to do. */
  datatype Effect =
    | ShowProof(url: string)
    | AssignTask(task: TaskRef, targetUserId: Option<string>)
    | OpenAssignModal(task: TaskRef)
    | Alert(message: string)
    | OpenProcessRequestModal(item: Item)

  function TableOf(it: Item): (t: string)
    ensures t == "requests" <==> it.IsRequest()
  {
    if it.IsRequest() then "requests" else "transactions"
  }

  /**
   * `handleLocalAction`: a click outside any action button, a proof button
   * without a URL, a button without action or id, or an id not in the list
   * does nothing.
   */
  function LocalAction(target: Option<Target>, items: seq<Item>, viewer: string): Option<Effect> {
    if target.None? then None
    else
      var t := target.value;
      if t.action == Some("viewProof") then
        (if Present(t.url) then Some(ShowProof(t.url.value)) else None)
      else if !Present(t.action) || !Present(t.id) then None
      else
        var id := t.id.value;
        var found := Find(items, (i: Item) => i.Id() == id);
        if found.None? then None
        else
          var item := found.value;
          var task := TaskRef(id, TableOf(item));
          var action := t.action.value;
          if action == "assign-self" then Some(AssignTask(task, Some(viewer)))
          else if action == "unassign" then Some(AssignTask(task, None))
          else if action == "assign-other" then Some(OpenAssignModal(task))
          else if action == "validate" then Some(Alert("Validation de " + id + " simulée."))
          else if action == "reject" then Some(Alert("Rejet de " + id + " simulé."))
          else if action == "process-request" then Some(OpenProcessRequestModal(item))
          else None
  }

  /** What clicking a button of the item should do, by kind. */
  function Expected(k: ActionKind, it: Item, viewer: string): Effect
    requires k != ViewProof
  {
    var task := TaskRef(it.Id(), TableOf(it));
    match k
    case AssignSelf => AssignTask(task, Some(viewer))
    case Unassign => AssignTask(task, None)
    case AssignOther => OpenAssignModal(task)
    case Validate => Alert("Validation de " + it.Id() + " simulée.")
    case Reject => Alert("Rejet de " + it.Id() + " simulé.")
    case ProcessRequest => OpenProcessRequestModal(it)
  }

  /** An action attribute naming some kind, on the first item with a non-empty id, has that kind's effect. */
  lemma DispatchKind(items: seq<Item>, k: nat, viewer: string, kind: ActionKind, url: Option<string>)
    requires k < |items| && items[k].Id() != "" && kind != ViewProof
    requires forall j :: 0 <= j < k ==> items[j].Id() != items[k].Id()
    ensures LocalAction(Some(Target(Some(ActionName(kind)), Some(items[k].Id()), url)), items, viewer)
            == Some(Expected(kind, items[k], viewer))
  {
    var id := items[k].Id();
    FindFirst(items, (i: Item) => i.Id() == id, k);
    ActionNameDispatch(kind, items[k], viewer);
  }

  /** The action chain of `handleLocalAction` maps each kind's attribute to that kind's effect. */
  lemma ActionNameDispatch(kind: ActionKind, it: Item, viewer: string)
    requires kind != ViewProof
    ensures var id, task, action := it.Id(), TaskRef(it.Id(), TableOf(it)), ActionName(kind);
      Some(Expected(kind, it, viewer)) ==
        if action == "assign-self" then Some(AssignTask(task, Some(viewer)))
        else if action == "unassign" then Some(AssignTask(task, None))
        else if action == "assign-other" then Some(OpenAssignModal(task))
        else if action == "validate" then Some(Alert("Validation de " + id + " simulée."))
        else if action == "reject" then Some(Alert("Rejet de " + id + " simulé."))
        else if action == "process-request" then Some(OpenProcessRequestModal(it))
        else None
  {
    match kind
    case AssignSelf =>
    case Unassign => assert ActionName(kind)[1] != "assign-self"[1];
    case AssignOther => assert ActionName(kind)[7] != "assign-self"[7];
    case Validate => assert ActionName(kind)[0] !in "aur";
    case Reject => assert ActionName(kind)[0] !in "auv";
    case ProcessRequest => assert ActionName(kind)[0] !in "auvr";
  }

  /**
   * Clicking a button rendered on a card does what its caption says:
   * self-assignment sends `assignTask` with the viewer as target, release
   * sends it with no target, and the payload type is 'requests' exactly for
   * requests. This needs the card's item to be the first in the list with
   * its id, and a non-empty id (`!id` rejects '').
   */
  lemma ButtonDispatch(items: seq<Item>, k: nat, viewer: string, isAdminGeneral: bool, b: Button)
    requires k < |items| && items[k].Id() != ""
    requires forall j :: 0 <= j < k ==> items[j].Id() != items[k].Id()
    requires b in Buttons(items[k], viewer, isAdminGeneral)
    ensures b.kind == ViewProof ==>
      items[k].TxItem? && LocalAction(Some(TargetOf(b)), items, viewer) == Some(ShowProof(items[k].tx.proofUrl.value))
    ensures b.kind != ViewProof ==> LocalAction(Some(TargetOf(b)), items, viewer) == Some(Expected(b.kind, items[k], viewer))
  {
    ButtonAttributes(items[k], viewer, isAdminGeneral, b);
    if b.kind != ViewProof {
      DispatchKind(items, k, viewer, b.kind, b.dataUrl);
    }
  }

  /** Actions naming an id that is not in the list are ignored. */
  lemma UnknownIdIgnored(items: seq<Item>, viewer: string, action: string, id: string, url: Option<string>)
    requires action != "viewProof"
    requires forall j :: 0 <= j < |items| ==> items[j].Id() != id
    ensures LocalAction(Some(Target(Some(action), Some(id), url)), items, viewer).None?
  {
  }

  // ------------------------------------------------------------ the cards

  datatype HeaderInfo = HeaderInfo(bgColor: string, statusText: string)

  /**
   * `getHeaderInfo`: amber 'Non assignée', blue 'Assignée à moi', or slate
   * 'Assignée à ' followed by the holder's name (`undefined` when the
   * profile is not loaded).
   */
  function GetHeaderInfo(it: Item, viewer: string, userNames: map<string, string>): (r: HeaderInfo)
    ensures r.bgColor == "bg-amber-500" <==> IsUnassigned(it)
    ensures r.bgColor == "bg-blue-600" <==> !IsUnassigned(it) && IsAssignedTo(it, viewer)
    ensures r.bgColor == "bg-slate-500" <==> !IsUnassigned(it) && !IsAssignedTo(it, viewer)
    ensures r.bgColor == "bg-amber-500" ==> r.statusText == "Non assignée"
    ensures r.bgColor == "bg-blue-600" ==> r.statusText == "Assignée à moi"
    ensures r.bgColor == "bg-slate-500" ==>
      r.statusText == "Assignée à " + (if it.AssignedTo().value in userNames then userNames[it.AssignedTo().value] else "undefined")
  {
    if IsUnassigned(it) then HeaderInfo("bg-amber-500", "Non assignée")
    else if IsAssignedTo(it, viewer) then HeaderInfo("bg-blue-600", "Assignée à moi")
    else
      var holder := it.AssignedTo().value;
      HeaderInfo("bg-slate-500", "Assignée à " + (if holder in userNames then userNames[holder] else "undefined"))
  }

  /** Amber cards are the unassigned view; for a non-empty viewer, blue cards are the assigned-to-me view. */
  lemma HeaderMatchesViews(items: seq<Item>, viewer: string, userNames: map<string, string>, x: Item)
    requires x in items && viewer != ""
    ensures GetHeaderInfo(x, viewer, userNames).bgColor == "bg-amber-500" <==> x in FilterItems(items, Unassigned, viewer)
    ensures GetHeaderInfo(x, viewer, userNames).bgColor == "bg-blue-600" <==> x in FilterItems(items, AssignedToMe, viewer)
  {
    ViewsExact(items, viewer, x);
  }

  /** `getOperationIcon`: substring tests in a fixed order of priority. */
  function GetOperationIcon(opTypeId: string): (r: string)
    ensures r == "fa-exchange-alt" <==> Contains(opTypeId, "transfert")
    ensures r == "fa-file-invoice-dollar" <==>
      !Contains(opTypeId, "transfert") && (Contains(opTypeId, "sde") || Contains(opTypeId, "facture"))
    ensures r == "fa-tv" <==>
      !Contains(opTypeId, "transfert") && !Contains(opTypeId, "sde") && !Contains(opTypeId, "facture")
      && (Contains(opTypeId, "reabo") || Contains(opTypeId, "canal"))
    ensures r == "fa-receipt" <==>
      !Contains(opTypeId, "transfert") && !Contains(opTypeId, "sde") && !Contains(opTypeId, "facture")
      && !Contains(opTypeId, "reabo") && !Contains(opTypeId, "canal") && !Contains(opTypeId, "woyofal")
    ensures r == "fa-lightbulb" <==>
      !Contains(opTypeId, "transfert") && !Contains(opTypeId, "sde") && !Contains(opTypeId, "facture")
      && !Contains(opTypeId, "reabo") && !Contains(opTypeId, "canal") && Contains(opTypeId, "woyofal")
  {
    if Contains(opTypeId, "transfert") then "fa-exchange-alt"
    else if Contains(opTypeId, "sde") || Contains(opTypeId, "facture") then "fa-file-invoice-dollar"
    else if Contains(opTypeId, "reabo") || Contains(opTypeId, "canal") then "fa-tv"
    else if Contains(opTypeId, "woyofal") then "fa-lightbulb"
    else "fa-receipt"
  }

  /** The card icon: 'fa-info-circle' exactly for requests, the operation icon otherwise. */
  function ItemIcon(it: Item): (r: string)
    ensures r == "fa-info-circle" <==> it.IsRequest()
    ensures it.TxItem? ==> r == GetOperationIcon(it.tx.opTypeId)
  {
    if it.IsRequest() then "fa-info-circle" else GetOperationIcon(it.tx.opTypeId)
  }

  // ---------------------------------------------------------- the state

  /** The queue component's state: the active tab, the expanded card and one page per view. */
  class QueueView {
    const items: seq<Item>
    const viewer: string
    const isAdminGeneral: bool
    var activeTab: Tab
    var expandedItemId: Option<string>
    var pageUnassigned: int
    var pageMine: int
    var pageAll: int

    ghost predicate Valid()
      reads this
    {
      QueueItems(items)
    }

    constructor (items: seq<Item>, viewer: string, isAdminGeneral: bool)
      requires QueueItems(items)
      ensures Valid()
      ensures this.items == items && this.viewer == viewer && this.isAdminGeneral == isAdminGeneral
      ensures activeTab == Unassigned && expandedItemId == None
      ensures pageUnassigned == 1 && pageMine == 1 && pageAll == 1
    {
      this.items := items;
      this.viewer := viewer;
      this.isAdminGeneral := isAdminGeneral;
      activeTab := Unassigned;
      expandedItemId := None;
      pageUnassigned, pageMine, pageAll := 1, 1, 1;
    }

    function CurrentPage(tab: Tab): int
      reads this
    {
      match tab
      case Unassigned => pageUnassigned
      case AssignedToMe => pageMine
      case All => pageAll
    }

    /** The cards of one view's current page. */
    function Shown(tab: Tab): seq<Item>
      reads this
    {
      Page(FilterItems(items, tab, viewer), CurrentPage(tab), ItemsPerPage)
    }

    function TotalPages(tab: Tab): nat
      reads this
    {
      PageCount(|FilterItems(items, tab, viewer)|, ItemsPerPage)
    }

    /** `handlePageChange`: sets one view's page, leaves the others, collapses the open card. */
    method PageChange(tab: Tab, page: int)
      requires Valid()
      modifies this
      ensures Valid()
      ensures CurrentPage(tab) == page
      ensures forall t :: t != tab ==> CurrentPage(t) == old(CurrentPage(t))
      ensures expandedItemId == None && activeTab == old(activeTab)
    {
      match tab {
        case Unassigned => pageUnassigned := page;
        case AssignedToMe => pageMine := page;
        case All => pageAll := page;
      }
      expandedItemId := None;
    }

    /** `handleTabClick`: switches view and collapses the open card; no page changes. */
    method TabClick(tab: Tab)
      requires Valid()
      modifies this
      ensures Valid()
      ensures activeTab == tab && expandedItemId == None
      ensures forall t :: CurrentPage(t) == old(CurrentPage(t))
    {
      activeTab := tab;
      expandedItemId := None;
    }

    /** Clicking a card body (not a button) opens it, or closes it when it is the open one. */
    method ToggleItem(id: string)
      requires Valid()
      modifies this
      ensures Valid()
      ensures expandedItemId == if old(expandedItemId) == Some(id) then None else Some(id)
      ensures activeTab == old(activeTab)
      ensures forall t :: CurrentPage(t) == old(CurrentPage(t))
    {
      expandedItemId := if expandedItemId == Some(id) then None else Some(id);
    }
  }

  /**
   * Page p of a view shows the view's items from position (p - 1) * 5 on, at
   * most 5 of them; it is empty (the 'nothing to process' message) exactly
   * past the last of the ceil(n / 5) pages; every shown card is in the queue.
   * `QueueView.Shown(tab)` is this page for the view's items, viewer and
   * `CurrentPage(tab)`.
   */
  lemma ShownPage(items: seq<Item>, tab: Tab, viewer: string, page: int)
    requires QueueItems(items) && page >= 1
    ensures var v := FilterItems(items, tab, viewer);
      var r := Page(v, page, ItemsPerPage);
      |r| <= 5
      && (forall j :: 0 <= j < |r| ==> (page - 1) * 5 + j < |v| && r[j] == v[(page - 1) * 5 + j])
      && (r == [] <==> page > PageCount(|v|, ItemsPerPage))
      && QueueItems(r)
  {
    var v := FilterItems(items, tab, viewer);
    PageSpec(v, page, ItemsPerPage);
    ViewsStayInQueue(items, tab, viewer);
  }
}
