/**
 * The administrator's sub-administrator page (`AdminManageSubAdmins`): the
 * sub-administrator cards, a search box over name and email with six cards
 * to a page, each card's task count, and the two task totals.
 */
module ManageSubAdmins {
  import opened Wrappers
  import opened Js
  import opened Lists
  import opened Domain
  import SuspendUser

  const ItemsPerPage := 6

  /** `subAdminsData`: the profiles with role 'sous_admin', in the record's order. */
  function SubAdmins(users: seq<User>): (r: seq<User>)
    ensures forall i :: 0 <= i < |r| ==> r[i].SousAdmin?
  {
    Filter(users, IsSousAdmin)
  }

  lemma SubAdminsExact(users: seq<User>, u: User)
    ensures u in SubAdmins(users) <==> u in users && RoleOf(u) == RoleSousAdmin
  {
    FilterMember(users, IsSousAdmin, u);
  }

  /** The name or the email contains the term, ignoring case. */
  predicate NameOrEmailMatches(term: string, sa: User) {
    ContainsIgnoringCase(sa.name, term) || ContainsIgnoringCase(sa.email, term)
  }

  /** `filteredSubAdmins`: everything for an empty term, otherwise the name or email matches. */
  function Search(subAdmins: seq<User>, term: string): seq<User> {
    if term == "" then subAdmins
    else Filter(subAdmins, (sa: User) => NameOrEmailMatches(term, sa))
  }

  /** A card is shown exactly when the term is empty or matches its name or email; the order is kept. */
  lemma SearchExact(subAdmins: seq<User>, term: string, sa: User)
    ensures sa in Search(subAdmins, term) <==> sa in subAdmins && (term == "" || NameOrEmailMatches(term, sa))
    ensures Search(subAdmins, "") == subAdmins
  {
    if term != "" {
      FilterMember(subAdmins, (sa: User) => NameOrEmailMatches(term, sa), sa);
    }
  }

  /** The search ignores case: a term and its lower-cased form show the same cards. */
  lemma SearchIgnoresCase(subAdmins: seq<User>, term: string, sa: User)
    ensures sa in Search(subAdmins, Lower(term)) <==> sa in Search(subAdmins, term)
  {
    LowerIdempotent(term);
    assert |Lower(term)| == |term|;
    SearchExact(subAdmins, term, sa);
    SearchExact(subAdmins, Lower(term), sa);
  }

  /** `paginatedSubAdmins` */
  function Shown(subAdmins: seq<User>, v: SearchPager): seq<User> {
    Page(Search(subAdmins, v.searchTerm), v.currentPage, ItemsPerPage)
  }

  /** `totalPages` */
  function TotalPages(subAdmins: seq<User>, v: SearchPager): nat {
    PageCount(|Search(subAdmins, v.searchTerm)|, ItemsPerPage)
  }

  /** After a search the first six matching cards are shown, in order, whatever page was open. */
  lemma SearchShowsFirstMatches(subAdmins: seq<User>, v: SearchPager, term: string)
    ensures var found := Search(subAdmins, term);
      var r := Shown(subAdmins, SearchChange(v, term));
      |r| == (if |found| < ItemsPerPage then |found| else ItemsPerPage)
      && forall j :: 0 <= j < |r| ==> r[j] == found[j]
  {
    var found := Search(subAdmins, term);
    PageSpec(found, 1, ItemsPerPage);
    TakeFirst(found, ItemsPerPage);
  }

  /** `users[id]?.role === 'sous_admin'` */
  predicate IsSubAdminId(users: seq<User>, id: string) {
    var u := UserById(users, id);
    u.Some? && u.value.SousAdmin?
  }

  /** `t.assigned_to && users[t.assigned_to]?.role === 'sous_admin'` */
  predicate AssignedToSubAdmin(users: seq<User>, t: Transaction) {
    Present(t.assignedTo) && IsSubAdminId(users, t.assignedTo.value)
  }

  /** `t.validateur_id && users[t.validateur_id]?.role === 'sous_admin'` */
  predicate ValidatedBySubAdmin(users: seq<User>, t: Transaction) {
    Present(t.validateurId) && IsSubAdminId(users, t.validateurId.value)
  }

  /** `totalAssignedTasks` */
  function AssignedTotal(users: seq<User>, txs: seq<Transaction>): (r: nat)
    ensures r <= |txs|
  {
    Count(txs, (t: Transaction) => AssignedToSubAdmin(users, t))
  }

  /** `totalCompletedTasks` */
  function CompletedTotal(users: seq<User>, txs: seq<Transaction>): (r: nat)
    ensures r <= |txs|
  {
    Count(txs, (t: Transaction) => ValidatedBySubAdmin(users, t))
  }

  /** With unique ids, a transaction counts towards the assigned total exactly when a sub-administrator holds it. */
  lemma AssignedTotalExact(users: seq<User>, txs: seq<Transaction>, t: Transaction)
    requires UniqueIds(users)
    ensures t in Filter(txs, (t: Transaction) => AssignedToSubAdmin(users, t)) <==>
      t in txs && exists sa :: sa in users && sa.SousAdmin? && sa.id != "" && t.assignedTo == Some(sa.id)
  {
    FilterMember(txs, (t: Transaction) => AssignedToSubAdmin(users, t), t);
    if AssignedToSubAdmin(users, t) {
      var u := UserById(users, t.assignedTo.value);
      assert u.value in users && u.value.id == t.assignedTo.value;
    }
    if exists sa :: sa in users && sa.SousAdmin? && sa.id != "" && t.assignedTo == Some(sa.id) {
      var sa :| sa in users && sa.SousAdmin? && sa.id != "" && t.assignedTo == Some(sa.id);
      UserByIdFinds(users, sa);
    }
  }

  /** With unique ids, a transaction counts towards the completed total exactly when a sub-administrator validated it. */
  lemma CompletedTotalExact(users: seq<User>, txs: seq<Transaction>, t: Transaction)
    requires UniqueIds(users)
    ensures t in Filter(txs, (t: Transaction) => ValidatedBySubAdmin(users, t)) <==>
      t in txs && exists sa :: sa in users && sa.SousAdmin? && sa.id != "" && t.validateurId == Some(sa.id)
  {
    FilterMember(txs, (t: Transaction) => ValidatedBySubAdmin(users, t), t);
    if ValidatedBySubAdmin(users, t) {
      var u := UserById(users, t.validateurId.value);
      assert u.value in users && u.value.id == t.validateurId.value;
    }
    if exists sa :: sa in users && sa.SousAdmin? && sa.id != "" && t.validateurId == Some(sa.id) {
      var sa :| sa in users && sa.SousAdmin? && sa.id != "" && t.validateurId == Some(sa.id);
      UserByIdFinds(users, sa);
    }
  }

  /** No card shows more tasks than the assigned total. */
  lemma CardWithinTotal(users: seq<User>, txs: seq<Transaction>, sa: User)
    requires UniqueIds(users) && sa in users && sa.SousAdmin? && sa.id != ""
    ensures TaskCount(txs, sa.id) <= AssignedTotal(users, txs)
  {
    UserByIdFinds(users, sa);
    CountImplies(txs, (t: Transaction) => t.assignedTo == Some(sa.id), (t: Transaction) => AssignedToSubAdmin(users, t));
  }

  /** The card's badge: 'Actif' for an active status, 'Suspendu' otherwise. */
  function StatusBadge(sa: User): (r: string)
    requires sa.SousAdmin?
    ensures r == "Actif" <==> sa.status == Some("active")
  {
    if sa.status == Some("active") then "Actif" else "Suspendu"
  }

  /** The permissions button is disabled for a suspended sub-administrator. */
  predicate PermissionsDisabled(sa: User)
    requires sa.SousAdmin?
  {
    sa.status == Some("suspended")
  }

  /** The second button's label. */
  function SuspendLabel(sa: User): (r: string)
    requires sa.SousAdmin?
    ensures r == "Suspendre" || r == "Réactiver"
  {
    if sa.status == Some("active") then "Suspendre" else "Réactiver"
  }

  /** The label announces what the suspension dialog it opens will do. */
  lemma LabelMatchesDialog(sa: User)
    requires sa.SousAdmin?
    ensures SuspendLabel(sa) == "Suspendre" <==> SuspendUser.IsSuspending(sa.status)
    ensures PermissionsDisabled(sa) ==> SuspendLabel(sa) == "Réactiver" && StatusBadge(sa) == "Suspendu"
  {
  }

  /** The suspension reason is shown for a suspended sub-administrator who has one. */
  predicate ShowsReason(sa: User)
    requires sa.SousAdmin?
  {
    sa.status == Some("suspended") && Present(sa.suspensionReason)
  }
}
