/**
 * The sub-administrator permissions dialog (`SubAdminPermissionsModal`): two
 * delegation flags, loaded from the selected sub-administrator (or all off),
 * toggled one at a time and handed to the caller on submit.
 */
module SubAdminPermissions {
  import opened Wrappers
  import opened Domain

  /** Both delegations are off until a sub-administrator says otherwise. */
  const DefaultPermissions := Permissions(false, false)

  /** The two checkboxes, named by their `name` attribute in the form. */
  datatype Flag = CanValidateTransactions | CanManageRequests

  function FlagName(f: Flag): (r: string)
    ensures r == "can_validate_transactions" || r == "can_manage_requests"
  {
    match f
    case CanValidateTransactions => "can_validate_transactions"
    case CanManageRequests => "can_manage_requests"
  }

  /** Distinct checkboxes carry distinct names, so a name picks one flag. */
  lemma FlagNameInjective(f: Flag, g: Flag)
    ensures FlagName(f) == FlagName(g) <==> f == g
  {
  }

  function Get(p: Permissions, f: Flag): bool {
    match f
    case CanValidateTransactions => p.canValidateTransactions
    case CanManageRequests => p.canManageRequests
  }

  /** `{ ...prev, [name]: checked }` */
  function SetFlag(p: Permissions, f: Flag, checked: bool): (r: Permissions)
    ensures Get(r, f) == checked
  {
    match f
    case CanValidateTransactions => p.(canValidateTransactions := checked)
    case CanManageRequests => p.(canManageRequests := checked)
  }

  /** Toggling a checkbox changes the named flag and leaves the other one as it was. */
  lemma SetFlagOnlyNamed(p: Permissions, f: Flag, checked: bool, g: Flag)
    ensures Get(SetFlag(p, f, checked), g) == if g == f then checked else Get(p, g)
  {
  }

  /** Setting a flag to the value it already has changes nothing. */
  lemma SetFlagUnchanged(p: Permissions, f: Flag)
    ensures SetFlag(p, f, Get(p, f)) == p
  {
  }

  /** `subAdmin.permissions || defaultPermissions` */
  function LoadedPermissions(s: SousAdminProfile): (r: Permissions)
    ensures s.permissions.Some? ==> r == s.permissions.value
    ensures s.permissions.None? ==> !Get(r, CanValidateTransactions) && !Get(r, CanManageRequests)
  {
    s.permissions.GetOr(DefaultPermissions)
  }

  /** What submit hands to `onSave`. */
  datatype Saved = Saved(id: string, permissions: Permissions)

  class PermissionsDialog {
    var subAdmin: Option<SousAdminProfile>
    var permissions: Permissions

    constructor ()
      ensures subAdmin.None? && permissions == DefaultPermissions
    {
      subAdmin := None;
      permissions := DefaultPermissions;
    }

    /** Nothing is rendered without a sub-administrator. */
    predicate Rendered()
      reads this
    {
      subAdmin.Some?
    }

    /**
     * A render with the `subAdmin` prop. The load effect runs only when the
     * prop differs from the previous render: a present sub-administrator's
     * permissions (or the defaults) replace the state; with none, or with
     * the same sub-administrator again, the flags as ticked stay.
     */
    method SubAdminChange(s: Option<SousAdminProfile>)
      modifies this
      ensures subAdmin == s
      ensures s.Some? && s != old(subAdmin) ==> permissions == LoadedPermissions(s.value)
      ensures s.None? || s == old(subAdmin) ==> permissions == old(permissions)
    {
      var depChanged := s != subAdmin;
      subAdmin := s;
      if depChanged && s.Some? {
        permissions := LoadedPermissions(s.value);
      }
    }

    /** `handleCheckboxChange` */
    method CheckboxChange(f: Flag, checked: bool)
      modifies this
      ensures permissions == SetFlag(old(permissions), f, checked)
      ensures subAdmin == old(subAdmin)
    {
      permissions := SetFlag(permissions, f, checked);
    }

    /**
     * `handleSubmit`: the flags as shown go to `onSave` under the
     * sub-administrator's id when one is loaded; the dialog closes in
     * every case.
     */
    method Submit() returns (saved: Option<Saved>, closes: bool)
      ensures subAdmin.Some? ==> saved == Some(Saved(subAdmin.value.id, permissions))
      ensures subAdmin.None? ==> saved.None?
      ensures closes
    {
      saved := if subAdmin.Some? then Some(Saved(subAdmin.value.id, permissions)) else None;
      closes := true;
    }
  }
}
