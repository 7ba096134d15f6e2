/**
 * The per-agency service assignment screen (`AdminAssignOpsToAgency`): a
 * working list of operation-type ids for the selected agency, edited by
 * checkboxes and saved into the access map, a save button disabled while
 * nothing differs, and the two name searches.
 */
module AssignOps {
  import opened Wrappers
  import opened Js
  import opened Lists
  import opened Domain

  /** `access[agencyId] || []` */
  function StoredList(access: map<string, seq<string>>, agencyId: string): seq<string> {
    if agencyId in access then access[agencyId] else []
  }

  function FilterAgencies(agencies: seq<Agency>, query: string): seq<Agency> {
    Filter(agencies, (a: Agency) => ContainsIgnoringCase(a.name, query))
  }

  function FilterOpTypes(opTypes: seq<OperationType>, query: string): seq<OperationType> {
    Filter(opTypes, (o: OperationType) => ContainsIgnoringCase(o.name, query))
  }

  /** The searches keep exactly the items whose name matches; an empty query keeps everything, in order. */
  lemma SearchSpec(agencies: seq<Agency>, opTypes: seq<OperationType>, query: string, a: Agency, o: OperationType)
    ensures a in FilterAgencies(agencies, query) <==> a in agencies && ContainsIgnoringCase(a.name, query)
    ensures o in FilterOpTypes(opTypes, query) <==> o in opTypes && ContainsIgnoringCase(o.name, query)
    ensures query == "" ==> FilterAgencies(agencies, query) == agencies && FilterOpTypes(opTypes, query) == opTypes
  {
    FilterMember(agencies, (a: Agency) => ContainsIgnoringCase(a.name, query), a);
    FilterMember(opTypes, (o: OperationType) => ContainsIgnoringCase(o.name, query), o);
    if query == "" {
      forall i | 0 <= i < |agencies| ensures ContainsIgnoringCase(agencies[i].name, query) {
        EmptyQueryMatches(agencies[i].name);
      }
      forall i | 0 <= i < |opTypes| ensures ContainsIgnoringCase(opTypes[i].name, query) {
        EmptyQueryMatches(opTypes[i].name);
      }
      FilterAll(agencies, (a: Agency) => ContainsIgnoringCase(a.name, query));
      FilterAll(opTypes, (o: OperationType) => ContainsIgnoringCase(o.name, query));
    }
  }

  /** `handleCheckChange`: checking appends the id; unchecking drops every occurrence of it and keeps the rest in order. */
  function CheckChange(changes: seq<string>, opTypeId: string, checked: bool): (r: seq<string>)
    ensures checked ==> r == changes + [opTypeId]
    ensures !checked ==> opTypeId !in r && forall x :: x != opTypeId ==> (x in r <==> x in changes)
    ensures !checked ==> multiset(r)[opTypeId := 0] == multiset(changes)[opTypeId := 0]
  {
    if checked then changes + [opTypeId]
    else
      var r := Filter(changes, (id: string) => id != opTypeId);
      forall x ensures x in r <==> x in changes && x != opTypeId {
        FilterMember(changes, (id: string) => id != opTypeId, x);
      }
      FilterPartition(changes, (id: string) => id != opTypeId, (id: string) => id == opTypeId);
      FilterOnly(changes, opTypeId);
      r
  }

  /** Keeping only one value keeps nothing else. */
  lemma FilterOnly(s: seq<string>, x: string)
    ensures multiset(Filter(s, (id: string) => id == x))[x := 0] == multiset{}
  {
    var f := Filter(s, (id: string) => id == x);
    forall y | y in multiset(f) ensures y == x {
      assert y in f;
    }
  }

  /** The alert shown after a save (`undefined` when the selected id names no agency). */
  function SavedMessage(agencies: seq<Agency>, agencyId: string): string {
    var a := Find(agencies, (a: Agency) => a.id == agencyId);
    "Permissions pour l'agence " + (if a.Some? then a.value.name else "undefined") + " sauvegardées !"
  }

  class AssignScreen {
    const agencies: seq<Agency>
    const opTypes: seq<OperationType>
    var access: map<string, seq<string>>
    var selectedAgencyId: string
    var changes: seq<string>
    var agencySearch: string
    var opTypeSearch: string

    /** The first agency is selected at first (or '' without agencies), and its stored list loaded. */
    constructor (agencies: seq<Agency>, opTypes: seq<OperationType>, access: map<string, seq<string>>)
      ensures this.agencies == agencies && this.opTypes == opTypes && this.access == access
      ensures selectedAgencyId == if |agencies| > 0 then agencies[0].id else ""
      ensures changes == StoredList(access, selectedAgencyId)
      ensures agencySearch == "" && opTypeSearch == ""
    {
      this.agencies, this.opTypes, this.access := agencies, opTypes, access;
      selectedAgencyId := if |agencies| > 0 then agencies[0].id else "";
      changes := StoredList(access, if |agencies| > 0 then agencies[0].id else "");
      agencySearch, opTypeSearch := "", "";
    }

    /**
     * Selecting an agency: the loading effect depends on the selected id, so
     * only a different agency loads its stored list (or []) as the working
     * list; clicking the selected one again keeps the unsaved changes.
     */
    method SelectAgency(agencyId: string)
      modifies this
      ensures selectedAgencyId == agencyId && access == old(access)
      ensures agencyId != old(selectedAgencyId) ==> changes == StoredList(access, agencyId)
      ensures agencyId == old(selectedAgencyId) ==> changes == old(changes)
      ensures agencySearch == old(agencySearch) && opTypeSearch == old(opTypeSearch)
    {
      if agencyId != selectedAgencyId {
        changes := StoredList(access, agencyId);
      }
      selectedAgencyId := agencyId;
    }

    method Check(opTypeId: string, checked: bool)
      modifies this
      ensures changes == CheckChange(old(changes), opTypeId, checked)
      ensures access == old(access) && selectedAgencyId == old(selectedAgencyId)
    {
      changes := CheckChange(changes, opTypeId, checked);
    }

    /** `handleSave`: the selected agency's entry becomes the working list; every other entry is untouched. */
    method Save() returns (message: string)
      modifies this
      ensures access == old(access)[selectedAgencyId := old(changes)]
      ensures forall k :: k != selectedAgencyId ==> (k in access <==> k in old(access))
      ensures forall k :: k != selectedAgencyId && k in access ==> access[k] == old(access)[k]
      ensures changes == old(changes) && selectedAgencyId == old(selectedAgencyId)
      ensures message == SavedMessage(agencies, selectedAgencyId)
    {
      access := access[selectedAgencyId := changes];
      message := SavedMessage(agencies, selectedAgencyId);
    }

    /**
     * `isSaveDisabled`: true exactly when the working list and the stored one
     * hold the same ids the same number of times. Computing it sorts both
     * lists in place, which the new state records; their contents are kept.
     */
    method IsSaveDisabled() returns (disabled: bool)
      modifies this
      ensures disabled <==> multiset(old(changes)) == multiset(StoredList(old(access), selectedAgencyId))
      ensures changes == SortStrings(old(changes))
      ensures access == if selectedAgencyId in old(access)
                        then old(access)[selectedAgencyId := SortStrings(old(access)[selectedAgencyId])]
                        else old(access)
      ensures multiset(changes) == multiset(old(changes))
      ensures multiset(StoredList(access, selectedAgencyId)) == multiset(StoredList(old(access), selectedAgencyId))
      ensures selectedAgencyId == old(selectedAgencyId)
    {
      var stored := StoredList(access, selectedAgencyId);
      SortStringsEqualIff(changes, stored);
      disabled := SortStrings(changes) == SortStrings(stored);
      changes := SortStrings(changes);
      if selectedAgencyId in access {
        access := access[selectedAgencyId := SortStrings(stored)];
      }
    }
  }
}
