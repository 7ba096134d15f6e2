/**
 * The agent editor (`CreateEditAgentModal`): a draft seeded from the agent
 * being edited (or from blank defaults), edited input by input, and turned
 * into a complete agent record of the chef's agency on submit.
 */
module CreateEditAgent {
  import opened Wrappers
  import opened Js
  import opened Domain

  /**
   * The inputs of the form that the draft holds (`Partial<Agent>`): an absent
   * key is `None` (or `Undefined` for the balance, which the number input
   * fills with `Number(value)`).
   */
  datatype Draft = Draft(name: Option<string>, email: Option<string>, solde: JsValue, status: Option<string>)

  /** The draft before the seeding effect first runs (`{}`). */
  const EmptyDraft := Draft(None, None, Undefined, None)

  /** The seeding effect on opening: a copy of the edited agent, or the creation defaults. */
  function SeedDraft(toEdit: Option<AgentProfile>): (d: Draft)
    ensures toEdit.None? ==> d == Draft(Some(""), Some(""), Num(0), Some("active"))
    ensures toEdit.Some? ==> d.name == Some(toEdit.value.name) && d.email == Some(toEdit.value.email)
                             && d.status == toEdit.value.status
    ensures toEdit.Some? ==> (d.solde.Num? <==> toEdit.value.solde.Some?)
  {
    match toEdit
    case None => Draft(Some(""), Some(""), Num(0), Some("active"))
    case Some(a) => Draft(Some(a.name), Some(a.email),
                          if a.solde.Some? then Num(a.solde.value) else Null, a.status)
  }

  /** The three named inputs; only the balance is `type="number"`. */
  datatype Input = NameInput | EmailInput | SoldeInput

  /** `Number(value)` as a JavaScript value. */
  function NumberValue(s: string): (v: JsValue)
    ensures v.Num? || v == NaN
    ensures v == NaN <==> StringToNumber(s).NotANumber?
    ensures v.Num? ==> StringToNumber(s) == Fin(v.n)
  {
    match StringToNumber(s)
    case Fin(n) => Num(n)
    case NotANumber => NaN
  }

  /** `handleChange`: the named input's key takes the typed value, converted with `Number` for the balance. */
  function ApplyChange(d: Draft, input: Input, value: string): (r: Draft)
    ensures input == NameInput ==> r == d.(name := Some(value))
    ensures input == EmailInput ==> r == d.(email := Some(value))
    ensures input == SoldeInput ==> r == d.(solde := NumberValue(value))
  {
    match input
    case NameInput => d.(name := Some(value))
    case EmailInput => d.(email := Some(value))
    case SoldeInput => d.(solde := NumberValue(value))
  }

  /** An empty balance input stores 0; an integer written plainly, with an exponent or with a zero fraction stores that integer. */
  lemma SoldeEntry(d: Draft, n: int)
    ensures ApplyChange(d, SoldeInput, "").solde == Num(0)
    ensures ApplyChange(d, SoldeInput, IntToString(n)).solde == Num(n)
    ensures ApplyChange(d, SoldeInput, "1e3").solde == Num(1000)
    ensures ApplyChange(d, SoldeInput, "100.0").solde == Num(100)
  {
    NumberOfIntToString(n);
    ExponentNotation();
    ZeroFractionNotation();
  }

  function OrEmpty(s: Option<string>): string {
    if s.Some? then s.value else ""
  }

  /** `(agentData.name || 'N').charAt(0).toUpperCase()` */
  function AvatarSeed(name: Option<string>): (r: string)
    ensures |r| == 1
    ensures OrEmpty(name) == "" ==> r == "N"
    ensures OrEmpty(name) != "" ==> r == [UpperChar(name.value[0])]
  {
    var n := if Present(name) then name.value else "N";
    [UpperChar(n[0])]
  }

  /** `agentData.solde || 0` */
  function SoldeOf(v: JsValue): (r: int)
    ensures v.Num? ==> r == v.n
    ensures !v.Num? ==> r == 0
  {
    if Truthy(v) && v.Num? then v.n else 0
  }

  /** `x || y` over an optional string. */
  function OrElse(s: Option<string>, otherwise: string): string {
    if Present(s) then s.value else otherwise
  }

  /**
   * `handleSubmit`'s record: the draft's name, email, balance and status
   * (with defaults), role agent, the chef's agency, the kept or generated id,
   * and the edited agent's dates, counters and suspension reason (or their
   * defaults for a new agent). `now` is `Date.now()` and `today` the ISO date.
   */
  function BuildAgent(toEdit: Option<AgentProfile>, d: Draft, agencyId: string, now: nat, today: string): (r: AgentProfile)
    ensures RoleOf(r) == RoleAgent && r.agencyId == Some(agencyId)
    ensures toEdit.Some? && toEdit.value.id != "" ==> r.id == toEdit.value.id
    ensures (toEdit.None? || toEdit.value.id == "") ==> r.id == "agent_" + NatToString(now)
    ensures r.name == OrEmpty(d.name) && r.email == OrEmpty(d.email)
    ensures r.solde == Some(SoldeOf(d.solde))
    ensures r.status.Some? && r.status.value != ""
    ensures Present(d.status) ==> r.status == d.status
    ensures !Present(d.status) ==> r.status == Some("active")
    ensures r.avatarSeed == Some(AvatarSeed(d.name))
    ensures toEdit.None? ==> r.creationDate == Some(today) && r.suspensionReason.None?
                             && r.transactionsThisMonth == r.commissionsMoisEstimees == r.commissionsDues == Some(0)
    ensures toEdit.Some? ==> r.creationDate == Some(OrElse(toEdit.value.creationDate, today))
    ensures toEdit.Some? ==> r.suspensionReason == (if Present(toEdit.value.suspensionReason) then toEdit.value.suspensionReason else None)
    ensures toEdit.Some? ==> r.transactionsThisMonth == Some(toEdit.value.transactionsThisMonth.GetOr(0))
                             && r.commissionsMoisEstimees == Some(toEdit.value.commissionsMoisEstimees.GetOr(0))
                             && r.commissionsDues == Some(toEdit.value.commissionsDues.GetOr(0))
  {
    var edited := toEdit.Some?;
    Agent(
      id := if edited && toEdit.value.id != "" then toEdit.value.id else "agent_" + NatToString(now),
      name := OrElse(d.name, ""),
      email := OrElse(d.email, ""),
      avatarSeed := Some(AvatarSeed(d.name)),
      agencyId := Some(agencyId),
      solde := Some(SoldeOf(d.solde)),
      status := Some(OrElse(d.status, "active")),
      suspensionReason := if edited && Present(toEdit.value.suspensionReason) then toEdit.value.suspensionReason else None,
      creationDate := Some(if edited then OrElse(toEdit.value.creationDate, today) else today),
      transactionsThisMonth := Some(if edited then toEdit.value.transactionsThisMonth.GetOr(0) else 0),
      commissionsMoisEstimees := Some(if edited then toEdit.value.commissionsMoisEstimees.GetOr(0) else 0),
      commissionsDues := Some(if edited then toEdit.value.commissionsDues.GetOr(0) else 0))
  }

  /** Creating without touching the form yields the blank active agent with the 'N' avatar. */
  lemma CreateDefaults(agencyId: string, now: nat, today: string)
    ensures var r := BuildAgent(None, SeedDraft(None), agencyId, now, today);
      r.name == "" && r.email == "" && r.solde == Some(0) && r.status == Some("active")
      && r.avatarSeed == Some("N")
  {
  }

  /**
   * Saving an edit without changes returns the same agent, moved to the
   * chef's agency, with absent values replaced by their defaults.
   */
  lemma EditRoundTrip(a: AgentProfile, agencyId: string, now: nat, today: string)
    requires a.id != "" && Present(a.status) && Present(a.creationDate)
    requires a.solde.Some? && a.transactionsThisMonth.Some? && a.commissionsMoisEstimees.Some? && a.commissionsDues.Some?
    requires a.avatarSeed == Some(AvatarSeed(Some(a.name)))
    requires a.suspensionReason.None? || Present(a.suspensionReason)
    ensures BuildAgent(Some(a), SeedDraft(Some(a)), agencyId, now, today)
         == Agent(a.id, a.name, a.email, a.avatarSeed, Some(agencyId), a.solde, a.status,
                  a.suspensionReason, a.creationDate, a.transactionsThisMonth,
                  a.commissionsMoisEstimees, a.commissionsDues)
  {
  }

  class AgentEditor {
    const agencyId: string
    var isOpen: bool
    var agentToEdit: Option<AgentProfile>
    var draft: Draft

    constructor (agencyId: string)
      ensures this.agencyId == agencyId && !isOpen && agentToEdit.None? && draft == EmptyDraft
    {
      this.agencyId := agencyId;
      isOpen, agentToEdit, draft := false, None, EmptyDraft;
    }

    /**
     * A render with the props `isOpen` and `agentToEdit`. The seeding effect
     * runs only when one of them differs from the previous render, and it
     * reseeds only an open dialog; the same props again keep the typed draft.
     */
    method PropsChange(open: bool, toEdit: Option<AgentProfile>)
      modifies this
      ensures isOpen == open && agentToEdit == toEdit
      ensures draft == if open && (open != old(isOpen) || toEdit != old(agentToEdit)) then SeedDraft(toEdit) else old(draft)
    {
      var depsChanged := open != isOpen || toEdit != agentToEdit;
      isOpen, agentToEdit := open, toEdit;
      if depsChanged && open {
        draft := SeedDraft(toEdit);
      }
    }

    method Change(input: Input, value: string)
      modifies this
      ensures draft == ApplyChange(old(draft), input, value)
      ensures isOpen == old(isOpen) && agentToEdit == old(agentToEdit)
    {
      draft := ApplyChange(draft, input, value);
    }

    /** `handleSubmit`: the record goes to `onSave`; the dialog itself stays as it is. */
    method Submit(now: nat, today: string) returns (saved: AgentProfile)
      ensures saved == BuildAgent(agentToEdit, draft, agencyId, now, today)
    {
      saved := BuildAgent(agentToEdit, draft, agencyId, now, today);
    }
  }
}
