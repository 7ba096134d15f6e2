/**
 * The developer's operation-type page (`DevManageOperationTypes`): the
 * loaded types with their defaults filled in, the status counters, a
 * search box and a status select, five rows to a page with one expandable
 * row, and the click dispatch of the table.
 */
module DevOpTypes {
  import opened Wrappers
  import opened Js
  import opened Lists
  import opened Domain

  const ItemsPerPage := 5
  const AllStatuses := "all"

  // ------------------------------------------------------------------ loading

  /** The fetched rows with `fields || []` and `commission_config || { type: 'none' }`. */
  function LoadAll(rows: seq<OperationTypeRow>): (r: seq<OperationType>)
    ensures |r| == |rows|
    ensures forall i :: 0 <= i < |r| ==> r[i] == LoadOperationType(rows[i])
  {
    if rows == [] then [] else [LoadOperationType(rows[0])] + LoadAll(rows[1..])
  }

  /** The list after the fetch: unchanged (still empty) on error, otherwise the loaded rows, none for `null` data. */
  function Fetched(failed: bool, data: Option<seq<OperationTypeRow>>): (r: seq<OperationType>)
    ensures failed || data.None? ==> r == []
    ensures !failed && data.Some? ==> r == LoadAll(data.value)
  {
    if failed then [] else LoadAll(data.GetOr([]))
  }

  /** Every loaded type has a commission configuration, `{ type: 'none' }` where the row had none. */
  lemma LoadedDefaults(rows: seq<OperationTypeRow>, i: nat)
    requires i < |rows|
    ensures rows[i].fields.None? ==> LoadAll(rows)[i].fields == []
    ensures rows[i].commissionConfig.None? ==> LoadAll(rows)[i].commissionConfig.kind == "none"
    ensures rows[i].commissionConfig.Some? ==> LoadAll(rows)[i].commissionConfig == rows[i].commissionConfig.value
    ensures LoadAll(rows)[i].id == rows[i].id && LoadAll(rows)[i].status == rows[i].status
  {
  }

  // ----------------------------------------------------------------- filtering

  /** The search term is empty, or the name or the description contains it, ignoring case. */
  predicate MatchesSearch(term: string, ot: OperationType) {
    term == "" || ContainsIgnoringCase(ot.name, term) || ContainsIgnoringCase(ot.description, term)
  }

  predicate MatchesStatus(statusFilter: string, ot: OperationType) {
    statusFilter == AllStatuses || ot.status == statusFilter
  }

  /** `filteredOperationTypes` */
  function Filtered(ops: seq<OperationType>, term: string, statusFilter: string): seq<OperationType> {
    Filter(ops, (ot: OperationType) => MatchesSearch(term, ot) && MatchesStatus(statusFilter, ot))
  }

  /** A type is listed exactly when it matches the search and the status filter; the order is kept. */
  lemma FilteredExact(ops: seq<OperationType>, term: string, statusFilter: string, ot: OperationType)
    ensures ot in Filtered(ops, term, statusFilter) <==> ot in ops && MatchesSearch(term, ot) && MatchesStatus(statusFilter, ot)
  {
    FilterMember(ops, (ot: OperationType) => MatchesSearch(term, ot) && MatchesStatus(statusFilter, ot), ot);
  }

  /** With an empty search and 'all', every type is listed. */
  lemma NoFilterKeepsAll(ops: seq<OperationType>)
    ensures Filtered(ops, "", AllStatuses) == ops
  {
    FilterAll(ops, (ot: OperationType) => MatchesSearch("", ot) && MatchesStatus(AllStatuses, ot));
  }

  // --------------------------------------------------------------------- stats

  datatype Stats = Stats(total: nat, active: nat, inactive: nat, archived: nat)

  /** One step of the reduce: every type counts in the total, and in at most one status counter. */
  function StatsStep(acc: Stats, op: OperationType): Stats {
    var acc := acc.(total := acc.total + 1);
    if op.status == "active" then acc.(active := acc.active + 1)
    else if op.status == "inactive" then acc.(inactive := acc.inactive + 1)
    else if op.status == "archived" then acc.(archived := acc.archived + 1)
    else acc
  }

  /** The reduce, from the left, starting at zero. */
  function StatsOf(ops: seq<OperationType>): Stats {
    if ops == [] then Stats(0, 0, 0, 0) else StatsStep(StatsOf(ops[..|ops| - 1]), ops[|ops| - 1])
  }

  function HasStatus(status: string): OperationType -> bool {
    (ot: OperationType) => ot.status == status
  }

  /** `stats`, computed as the source does, by bumping the accumulator's fields in a loop. */
  method ComputeStats(ops: seq<OperationType>) returns (acc: Stats)
    ensures acc == StatsOf(ops)
  {
    acc := Stats(0, 0, 0, 0);
    var i := 0;
    while i < |ops|
      invariant 0 <= i <= |ops|
      invariant acc == StatsOf(ops[..i])
    {
      assert ops[..i + 1][..i] == ops[..i];
      acc := acc.(total := acc.total + 1);
      if ops[i].status == "active" {
        acc := acc.(active := acc.active + 1);
      } else if ops[i].status == "inactive" {
        acc := acc.(inactive := acc.inactive + 1);
      } else if ops[i].status == "archived" {
        acc := acc.(archived := acc.archived + 1);
      }
      i := i + 1;
    }
    assert ops[..i] == ops;
  }

  /** The counters are the number of types, and the numbers of types with each exact status. */
  lemma {:induction false} StatsCounts(ops: seq<OperationType>)
    ensures StatsOf(ops) == Stats(|ops|, Count(ops, HasStatus("active")), Count(ops, HasStatus("inactive")),
                                  Count(ops, HasStatus("archived")))
  {
    if ops != [] {
      var init, last := ops[..|ops| - 1], ops[|ops| - 1];
      assert ops == init + [last];
      StatsCounts(init);
      StepCounts(StatsOf(init), last);
      CountSnoc(init, last, HasStatus("active"));
      CountSnoc(init, last, HasStatus("inactive"));
      CountSnoc(init, last, HasStatus("archived"));
    }
  }

  /** A step adds one to the total and one to the counter of the type's status, if it has one of the three. */
  lemma StepCounts(acc: Stats, op: OperationType)
    ensures StatsStep(acc, op) == Stats(acc.total + 1,
                                        acc.active + (if HasStatus("active")(op) then 1 else 0),
                                        acc.inactive + (if HasStatus("inactive")(op) then 1 else 0),
                                        acc.archived + (if HasStatus("archived")(op) then 1 else 0))
  {
    assert "active" != "inactive" && "active" != "archived" && "inactive" != "archived" by {
      assert "active"[0] != "inactive"[0] && "active"[1] != "archived"[1] && "inactive"[0] != "archived"[0];
    }
  }

  /** A type with any other status is counted in the total only, so the three counters never exceed it. */
  lemma {:induction false} StatsBound(ops: seq<OperationType>)
    ensures StatsOf(ops).active + StatsOf(ops).inactive + StatsOf(ops).archived <= StatsOf(ops).total
    ensures StatsOf(ops).total == |ops|
  {
    if ops != [] {
      StatsBound(ops[..|ops| - 1]);
    }
  }

  // ---------------------------------------------------------------- the page

  /** `paginatedOpTypes` */
  function Shown(ops: seq<OperationType>, term: string, statusFilter: string, page: int): seq<OperationType> {
    Page(Filtered(ops, term, statusFilter), page, ItemsPerPage)
  }

  function TotalPages(ops: seq<OperationType>, term: string, statusFilter: string): nat {
    PageCount(|Filtered(ops, term, statusFilter)|, ItemsPerPage)
  }

  /** A page holds at most five rows, taken in order from the filtered list. */
  lemma PageOfOpTypes(ops: seq<OperationType>, term: string, statusFilter: string, page: int)
    requires page >= 1
    ensures var r, f := Shown(ops, term, statusFilter, page), Filtered(ops, term, statusFilter);
      |r| <= ItemsPerPage
      && forall j :: 0 <= j < |r| ==> (page - 1) * ItemsPerPage + j < |f| && r[j] == f[(page - 1) * ItemsPerPage + j]
  {
    var f := Filtered(ops, term, statusFilter);
    assert Shown(ops, term, statusFilter, page) == Page(f, page, ItemsPerPage);
    PageSpec(f, page, ItemsPerPage);
  }

  /** `handleAction(key, id)` for a button's `data-action`, when both attributes are non-empty. */
  function ButtonCall(action: Option<string>, id: Option<string>): (r: Option<(string, string)>)
    ensures r.Some? ==> Present(action) && Present(id) && r.value.1 == id.value
    ensures !Present(action) || !Present(id) ==> r.None?
  {
    if !Present(action) || !Present(id) then None
    else if action.value == "edit-op-type" then Some(("openDevOpTypeModal", id.value))
    else if action.value == "duplicateOpType" then Some(("duplicateOpType", id.value))
    else if action.value == "toggleOpTypeStatus" then Some(("toggleOpTypeStatus", id.value))
    else None
  }

  /** The three buttons of a row with a non-empty id edit, duplicate and toggle that type, and no other action does anything. */
  lemma RowButtonsDispatch(ot: OperationType, action: string)
    requires ot.id != ""
    ensures ButtonCall(Some("edit-op-type"), Some(ot.id)) == Some(("openDevOpTypeModal", ot.id))
    ensures ButtonCall(Some("duplicateOpType"), Some(ot.id)) == Some(("duplicateOpType", ot.id))
    ensures ButtonCall(Some("toggleOpTypeStatus"), Some(ot.id)) == Some(("toggleOpTypeStatus", ot.id))
    ensures action !in {"edit-op-type", "duplicateOpType", "toggleOpTypeStatus"} ==> ButtonCall(Some(action), Some(ot.id)).None?
  {
  }

  /** Where a click on the table body lands. */
  datatype Click =
    | OnButton(action: Option<string>, id: Option<string>)
    | OnRow(opId: Option<string>)
    | Elsewhere

  /** What the expanded details show of a commission configuration. */
  datatype CommissionView = NoneShown | FixedShown(amount: Option<int>) | RateShown(rate: Option<real>)
                          | TiersShown(tiers: seq<CommissionTier>) | NothingShown

  /** `renderCommission`, by configuration kind; an unknown kind renders nothing. */
  function RenderCommission(config: CommissionConfig): (v: CommissionView)
    ensures v.NothingShown? <==> config.kind !in {"none", "fixed", "percentage", "tiers"}
    ensures config.kind == "fixed" ==> v == FixedShown(config.amount)
    ensures config.kind == "percentage" ==> v == RateShown(config.rate)
    ensures config.kind == "none" ==> v == NoneShown
    ensures config.kind == "tiers" ==> v == TiersShown(if config.tiers.Some? then config.tiers.value else [])
  {
    if config.kind == "none" then NoneShown
    else if config.kind == "fixed" then FixedShown(config.amount)
    else if config.kind == "percentage" then RateShown(config.rate)
    else if config.kind == "tiers" then TiersShown(config.tiers.GetOr([]))
    else NothingShown
  }

  /** A type loaded without a configuration shows 'Aucune commission'. */
  lemma LoadedWithoutConfigShowsNone(row: OperationTypeRow)
    requires row.commissionConfig.None?
    ensures RenderCommission(LoadOperationType(row).commissionConfig) == NoneShown
  {
  }

  class OpTypesPage {
    var searchTerm: string
    var statusFilter: string
    var expandedOpId: Option<string>
    var currentPage: int

    constructor ()
      ensures searchTerm == "" && statusFilter == AllStatuses && expandedOpId.None? && currentPage == 1
    {
      searchTerm, statusFilter, expandedOpId, currentPage := "", AllStatuses, None, 1;
    }

    /** `handlePageChange`: the page changes and the open row closes. */
    method PageChange(page: int)
      modifies this
      ensures currentPage == page && expandedOpId.None?
      ensures searchTerm == old(searchTerm) && statusFilter == old(statusFilter)
    {
      currentPage := page;
      expandedOpId := None;
    }

    /** Typing a search term: back to page 1 with every row closed. */
    method SearchInput(term: string)
      modifies this
      ensures searchTerm == term && currentPage == 1 && expandedOpId.None?
      ensures statusFilter == old(statusFilter)
    {
      searchTerm := term;
      PageChange(1);
    }

    /** Choosing a status: back to page 1 with every row closed. */
    method StatusSelect(status: string)
      modifies this
      ensures statusFilter == status && currentPage == 1 && expandedOpId.None?
      ensures searchTerm == old(searchTerm)
    {
      statusFilter := status;
      PageChange(1);
    }

    /** `handleRowToggle` */
    method RowToggle(opId: string)
      modifies this
      ensures expandedOpId == Toggle(old(expandedOpId), opId)
      ensures searchTerm == old(searchTerm) && statusFilter == old(statusFilter) && currentPage == old(currentPage)
    {
      expandedOpId := Toggle(expandedOpId, opId);
    }

    /**
     * `handleTableClick`: a button hands its action to the application; a
     * click elsewhere on a row with a non-empty id toggles that row.
     */
    method TableClick(click: Click) returns (call: Option<(string, string)>)
      modifies this
      ensures call == if click.OnButton? then ButtonCall(click.action, click.id) else None
      ensures expandedOpId == if click.OnRow? && Present(click.opId) then Toggle(old(expandedOpId), click.opId.value)
                              else old(expandedOpId)
      ensures searchTerm == old(searchTerm) && statusFilter == old(statusFilter) && currentPage == old(currentPage)
    {
      call := None;
      match click
      case OnButton(action, id) =>
        call := ButtonCall(action, id);
      case OnRow(opId) =>
        if Present(opId) {
          RowToggle(opId.value);
        }
      case Elsewhere =>
    }
  }
}
