/**
 * The agent's new-operation form (`NewOperationModal`): choosing an operation
 * type seeds the form with the fields' default values, the validity flag is
 * recomputed after every change, the projected balance follows the first
 * amount field, and closing clears everything.
 */
module NewOperation {
  import opened Wrappers
  import opened Js
  import opened Lists
  import opened Domain

  /** `formData[name] && formData[name] !== ''` */
  predicate Filled(formData: map<string, JsValue>, name: string) {
    name in formData && Truthy(formData[name])
  }

  /** The validity effect as written: filter the required fields, then check every one, then the proof. */
  predicate ValidityEffect(selected: Option<OperationType>, formData: map<string, JsValue>, hasProof: bool) {
    selected.Some?
    && Every(Filter(selected.value.fields, (f: FormField) => f.required), (f: FormField) => Filled(formData, f.name))
    && (!selected.value.proofIsRequired || hasProof)
  }

  /**
   * The form is valid exactly when a type is selected, every required field
   * of it has a non-empty value, and a proof file is attached when the type
   * requires one; with no type selected it is invalid.
   */
  lemma ValidityExact(selected: Option<OperationType>, formData: map<string, JsValue>, hasProof: bool)
    ensures ValidityEffect(selected, formData, hasProof) <==>
      selected.Some?
      && (forall i :: 0 <= i < |selected.value.fields| && selected.value.fields[i].required ==>
            Filled(formData, selected.value.fields[i].name))
      && (selected.value.proofIsRequired ==> hasProof)
  {
    if selected.Some? {
      var fs := selected.value.fields;
      var req := Filter(fs, (f: FormField) => f.required);
      EveryExact(req, (f: FormField) => Filled(formData, f.name));
      forall i | 0 <= i < |fs| && fs[i].required ensures fs[i] in req {
        FilterMember(fs, (f: FormField) => f.required, fs[i]);
      }
      forall f | f in req ensures f in fs && f.required {
        FilterMember(fs, (f: FormField) => f.required, f);
      }
    }
  }

  // ------------------------------------------------------------- seeding

  /** The `reduce` of `handleOpTypeChange`: each field with a truthy default sets its name to it. */
  function SeedFormData(fields: seq<FormField>): map<string, JsValue> {
    if fields == [] then map[]
    else
      var acc := SeedFormData(fields[..|fields| - 1]);
      var f := fields[|fields| - 1];
      if Truthy(f.defaultValue) then acc[f.name := f.defaultValue] else acc
  }

  /** The seeding of one more field sets that field's name when its default is truthy. */
  lemma SeedStep(fields: seq<FormField>, i: nat)
    requires i < |fields|
    ensures SeedFormData(fields[..i + 1]) ==
      if Truthy(fields[i].defaultValue) then SeedFormData(fields[..i])[fields[i].name := fields[i].defaultValue]
      else SeedFormData(fields[..i])
  {
    assert fields[..i + 1][..i] == fields[..i];
  }

  predicate Seeds(f: FormField, name: string) {
    f.name == name && Truthy(f.defaultValue)
  }

  /**
   * The seeded form has exactly the names of the fields with a truthy
   * default, each mapped to the default of the last such field of that name.
   */
  lemma {:induction false} SeedSpec(fields: seq<FormField>, name: string)
    ensures name in SeedFormData(fields) <==> exists i :: 0 <= i < |fields| && Seeds(fields[i], name)
    ensures name in SeedFormData(fields) ==>
      exists i :: 0 <= i < |fields| && Seeds(fields[i], name) && SeedFormData(fields)[name] == fields[i].defaultValue
        && forall j :: i < j < |fields| ==> !Seeds(fields[j], name)
  {
    if fields != [] {
      var init := fields[..|fields| - 1];
      var last := fields[|fields| - 1];
      SeedSpec(init, name);
      assert forall i :: 0 <= i < |init| ==> init[i] == fields[i];
      if Seeds(last, name) {
        assert Seeds(fields[|fields| - 1], name);
      } else {
        SeedOther(fields, name);
        if name in SeedFormData(init) {
          var i :| 0 <= i < |init| && Seeds(init[i], name) && SeedFormData(init)[name] == init[i].defaultValue
                   && forall j :: i < j < |init| ==> !Seeds(init[j], name);
          assert Seeds(fields[i], name) && forall j :: i < j < |fields| ==> !Seeds(fields[j], name);
        }
      }
    }
  }

  /** A last field that does not seed `name` leaves its entry as it was. */
  lemma SeedOther(fields: seq<FormField>, name: string)
    requires fields != [] && !Seeds(fields[|fields| - 1], name)
    ensures var init := SeedFormData(fields[..|fields| - 1]);
      (name in SeedFormData(fields) <==> name in init)
      && (name in init ==> SeedFormData(fields)[name] == init[name])
  {
  }

  /** Every seeded value is truthy, so a seeded required field counts as filled. */
  lemma SeedFilled(fields: seq<FormField>, name: string)
    requires name in SeedFormData(fields)
    ensures Filled(SeedFormData(fields), name)
  {
    SeedSpec(fields, name);
  }

  // ------------------------------------------------------------ balance

  /** `amountInput`'s test: the field's name contains 'montant'. */
  predicate IsAmountField(f: FormField) {
    Contains(f.name, "montant")
  }

  /** `Number(formData[amountInput.name]) || 0` for the first field whose name contains 'montant'; 0 without one. */
  function CurrentAmount(selected: Option<OperationType>, formData: map<string, JsValue>): int {
    var fields := if selected.Some? then selected.value.fields else [];
    var amountInput := Find(fields, IsAmountField);
    if amountInput.None? then 0
    else
      var name := amountInput.value.name;
      OrZero(ToNumber(if name in formData then formData[name] else Undefined))
  }

  /**
   * The projected balance: the balance (none read as 0) minus the current
   * amount when the type impacts the balance; otherwise the balance as it is.
   */
  function BalanceAfter(selected: Option<OperationType>, formData: map<string, JsValue>, solde: Option<int>): (r: Option<int>)
    ensures selected.Some? && selected.value.impactsBalance ==> r == Some(solde.GetOr(0) - CurrentAmount(selected, formData))
    ensures !(selected.Some? && selected.value.impactsBalance) ==> r == solde
  {
    if selected.Some? && selected.value.impactsBalance then Some(solde.GetOr(0) - CurrentAmount(selected, formData))
    else solde
  }

  /**
   * Typing n into the first amount field of a balance-impacting type projects
   * the balance minus n.
   */
  lemma BalanceFollowsAmount(op: OperationType, k: nat, formData: map<string, JsValue>, solde: Option<int>, n: int)
    requires op.impactsBalance && k < |op.fields| && IsAmountField(op.fields[k])
    requires forall j :: 0 <= j < k ==> !IsAmountField(op.fields[j])
    ensures BalanceAfter(Some(op), formData[op.fields[k].name := Str(IntToString(n))], solde) == Some(solde.GetOr(0) - n)
  {
    AmountOfTyped(op, k, formData, n);
    DebitOfAmount(op, formData[op.fields[k].name := Str(IntToString(n))], solde, n);
  }

  /** A balance-impacting type debits the current amount from the balance. */
  lemma DebitOfAmount(op: OperationType, data: map<string, JsValue>, solde: Option<int>, n: int)
    requires op.impactsBalance && CurrentAmount(Some(op), data) == n
    ensures BalanceAfter(Some(op), data, solde) == Some(solde.GetOr(0) - n)
  {
  }

  /** Typing into any field not named like the amount field leaves the current amount as it is. */
  lemma OtherFieldKeepsAmount(op: OperationType, k: nat, formData: map<string, JsValue>, name: string, v: JsValue)
    requires k < |op.fields| && IsAmountField(op.fields[k])
    requires forall j :: 0 <= j < k ==> !IsAmountField(op.fields[j])
    requires name != op.fields[k].name
    ensures CurrentAmount(Some(op), formData[name := v]) == CurrentAmount(Some(op), formData)
  {
    FindFirst(op.fields, IsAmountField, k);
  }

  /** The current amount is the number typed into the first amount field. */
  lemma AmountOfTyped(op: OperationType, k: nat, formData: map<string, JsValue>, n: int)
    requires k < |op.fields| && IsAmountField(op.fields[k])
    requires forall j :: 0 <= j < k ==> !IsAmountField(op.fields[j])
    ensures CurrentAmount(Some(op), formData[op.fields[k].name := Str(IntToString(n))]) == n
  {
    FindFirst(op.fields, IsAmountField, k);
    TypedAmountReadsBack(formData, op.fields[k].name, n);
  }

  /** The text of a number typed into a field reads back as that number. */
  lemma TypedAmountReadsBack(formData: map<string, JsValue>, name: string, n: int)
    ensures var data := formData[name := Str(IntToString(n))];
      name in data && OrZero(ToNumber(data[name])) == n
  {
    NumberOfIntToString(n);
  }

  /** Without a field named like 'montant', the projection is the balance (none as 0). */
  lemma NoAmountFieldNoDebit(op: OperationType, formData: map<string, JsValue>, solde: Option<int>)
    requires op.impactsBalance
    requires forall j :: 0 <= j < |op.fields| ==> !IsAmountField(op.fields[j])
    ensures BalanceAfter(Some(op), formData, solde) == Some(solde.GetOr(0))
  {
  }

  // ------------------------------------------------------------ the state

  /** `operationTypes.find(op => op.id === opTypeId)`: the first type with that id, none when no type has it. */
  function TypeWithId(available: seq<OperationType>, opTypeId: string): (r: Option<OperationType>)
    ensures r.None? <==> forall i :: 0 <= i < |available| ==> available[i].id != opTypeId
    ensures r.Some? ==> r.value in available && r.value.id == opTypeId
    ensures r.Some? ==> exists i :: 0 <= i < |available| && available[i] == r.value
                                    && forall j :: 0 <= j < i ==> available[j].id != opTypeId
  {
    Find(available, (o: OperationType) => o.id == opTypeId)
  }

  /** What the form hands to the save handler. */
  datatype Submission = Submission(opTypeId: string, formData: map<string, JsValue>, hasProof: bool)

  class NewOperationForm {
    const available: seq<OperationType>
    var selected: Option<OperationType>
    var formData: map<string, JsValue>
    var hasProof: bool
    var isFormValid: bool

    /** The validity effect has run after the last change. */
    ghost predicate Valid()
      reads this
    {
      isFormValid == ValidityEffect(selected, formData, hasProof)
    }

    constructor (available: seq<OperationType>)
      ensures Valid() && this.available == available
      ensures selected.None? && formData == map[] && !hasProof && !isFormValid
    {
      this.available := available;
      selected, formData, hasProof, isFormValid := None, map[], false, false;
    }

    /** Closing the modal: no type, no data, no file, invalid. */
    method Close()
      modifies this
      ensures Valid()
      ensures selected.None? && formData == map[] && !hasProof && !isFormValid
    {
      selected, formData, hasProof, isFormValid := None, map[], false, false;
    }

    /**
     * `handleOpTypeChange`: selects the first available type with the id (or
     * none) and replaces the form data by that type's seeded defaults.
     */
    method OpTypeChange(opTypeId: string)
      modifies this
      ensures Valid()
      ensures selected == TypeWithId(available, opTypeId)
      ensures formData == if selected.Some? then SeedFormData(selected.value.fields) else map[]
      ensures hasProof == old(hasProof)
    {
      var chosen := TypeWithId(available, opTypeId);
      var acc: map<string, JsValue> := map[];
      if chosen.Some? {
        var fields := chosen.value.fields;
        var i := 0;
        while i < |fields|
          invariant 0 <= i <= |fields|
          invariant acc == SeedFormData(fields[..i])
          modifies {}
        {
          SeedStep(fields, i);
          if Truthy(fields[i].defaultValue) {
            acc := acc[fields[i].name := fields[i].defaultValue];
          }
          i := i + 1;
        }
        assert fields[..|fields|] == fields;
      }
      selected, formData := chosen, acc;
      isFormValid := ValidityEffect(selected, formData, hasProof);
    }

    /** `handleFieldChange`: sets one key to the typed text; every other key is kept. */
    method FieldChange(name: string, value: string)
      modifies this
      ensures Valid()
      ensures formData == old(formData)[name := Str(value)]
      ensures forall k :: k != name ==> (k in formData <==> k in old(formData))
      ensures forall k :: k != name && k in formData ==> formData[k] == old(formData)[k]
      ensures selected == old(selected) && hasProof == old(hasProof)
    {
      formData := formData[name := Str(value)];
      isFormValid := ValidityEffect(selected, formData, hasProof);
    }

    /** `handleFileChange`: a file chosen, or none. */
    method FileChange(fileChosen: bool)
      modifies this
      ensures Valid()
      ensures hasProof == fileChosen && selected == old(selected) && formData == old(formData)
    {
      hasProof := fileChosen;
      isFormValid := ValidityEffect(selected, formData, hasProof);
    }

    /** `handleSubmit`: nothing when invalid; otherwise the submission goes to the save handler and the modal closes. */
    method Submit() returns (saved: Option<Submission>)
      requires Valid()
      modifies this
      ensures Valid()
      ensures !old(isFormValid) ==> saved.None? && selected == old(selected) && formData == old(formData) && hasProof == old(hasProof)
      ensures old(isFormValid) ==>
        saved == Some(Submission(old(selected).value.id, old(formData), old(hasProof)))
        && selected.None? && formData == map[] && !hasProof && !isFormValid
    {
      if !isFormValid {
        return None;
      }
      saved := Some(Submission(selected.value.id, formData, hasProof));
      Close();
    }
  }
}
