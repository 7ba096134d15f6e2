/**
 * The application shell (`App`): the new-transaction record an agent's
 * submission produces, the page shown for a page key, and the shell state
 * that the profile loader, the logout and navigation handlers and the
 * `handleAction` dispatcher update. The storage upload and the insert are
 * I/O: their outcomes are parameters.
 */
module App {
  import opened Wrappers
  import opened Js
  import opened Domain

  // ------------------------------------------------ the new transaction

  /** The row inserted for a new operation (the database fills in the rest). */
  datatype NewTransaction = NewTransaction(agentId: string, opTypeId: string, data: map<string, JsValue>,
                                           montantPrincipal: int, frais: int, montantTotal: int,
                                           commissionGeneree: int, proofUrl: Option<string>, status: string)

  const Fee: int := 250
  const FixedCommission: int := 50
  const InitialStatus: string := "En attente de validation"

  /** `Number(formData.montant_transfert) || 0` (a missing key reads as `undefined`). */
  function PrincipalOf(formData: map<string, JsValue>): int {
    OrZero(ToNumber(if "montant_transfert" in formData then formData["montant_transfert"] else Undefined))
  }

  /**
   * The record for an operation: fee 250, total = principal + fee, a
   * commission of 50 whatever the type or amount, the submitter as agent,
   * and the pending status.
   */
  function BuildTransaction(agentId: string, opTypeId: string, formData: map<string, JsValue>,
                            proofUrl: Option<string>): (r: NewTransaction)
    ensures r.montantPrincipal == PrincipalOf(formData)
    ensures r.frais == 250 && r.montantTotal == r.montantPrincipal + r.frais
    ensures r.commissionGeneree == 50
    ensures r.agentId == agentId && r.opTypeId == opTypeId && r.data == formData
    ensures r.proofUrl == proofUrl && r.status == "En attente de validation"
  {
    var principal := PrincipalOf(formData);
    NewTransaction(agentId, opTypeId, formData, principal, Fee, principal + Fee, FixedCommission, proofUrl, InitialStatus)
  }

  /** The principal is the number typed into 'montant_transfert', as a decimal text or a number. */
  lemma PrincipalFromAmountField(formData: map<string, JsValue>, n: int)
    ensures PrincipalOf(formData["montant_transfert" := Str(IntToString(n))]) == n
    ensures PrincipalOf(formData["montant_transfert" := Num(n)]) == n
  {
    NumberOfIntToString(n);
  }

  /** An amount typed as `1e3` or `100.0` is read by `Number` as the integer it denotes. */
  lemma PrincipalNotations(formData: map<string, JsValue>)
    ensures PrincipalOf(formData["montant_transfert" := Str("1e3")]) == 1000
    ensures PrincipalOf(formData["montant_transfert" := Str("100.0")]) == 100
  {
    ExponentNotation();
    ZeroFractionNotation();
  }

  /** A missing or non-numeric 'montant_transfert' gives a principal of 0, so the total is the fee. */
  lemma PrincipalDefaultsToZero(formData: map<string, JsValue>, agentId: string, opTypeId: string, proofUrl: Option<string>)
    requires "montant_transfert" !in formData || ToNumber(formData["montant_transfert"]).NotANumber?
    ensures BuildTransaction(agentId, opTypeId, formData, proofUrl).montantPrincipal == 0
    ensures BuildTransaction(agentId, opTypeId, formData, proofUrl).montantTotal == 250
  {
  }

  /** No other field affects the amounts: an operation whose amount field has another name is recorded with principal 0. */
  lemma OtherFieldsIgnored(formData: map<string, JsValue>, key: string, v: JsValue)
    requires key != "montant_transfert"
    ensures PrincipalOf(formData[key := v]) == PrincipalOf(formData)
  {
    if "montant_transfert" in formData {
      assert formData[key := v]["montant_transfert"] == formData["montant_transfert"];
    }
  }

  // -------------------------------------------------------- the pages

  datatype PageView = ProfilePage | SettingsPage | Component(name: string) | NotFound

  function LinksOf(links: map<Role, seq<NavLink>>, role: Role): seq<NavLink> {
    if role in links then links[role] else []
  }

  /**
   * The page for a key: the profile and settings pages by name; otherwise the
   * component of the first of the role's links with that key; 'Page non
   * trouvée' when there is none or that link is an action without component.
   */
  function ResolvePage(pageKey: string, links: map<Role, seq<NavLink>>, role: Role): (r: PageView)
    ensures pageKey == "Mon Profil" <==> r == ProfilePage
    ensures pageKey != "Mon Profil" && pageKey == "Paramètres" <==> r == SettingsPage
    ensures r.Component? <==> (pageKey != "Mon Profil" && pageKey != "Paramètres" &&
      exists i :: FirstIndexOf(LinksOf(links, role), pageKey, i) && LinksOf(links, role)[i].component.Some?)
    ensures r.Component? ==>
      exists i :: FirstIndexOf(LinksOf(links, role), pageKey, i) && LinksOf(links, role)[i].component == Some(r.name)
  {
    if pageKey == "Mon Profil" then ProfilePage
    else if pageKey == "Paramètres" then SettingsPage
    else
      var first := FirstWithKey(LinksOf(links, role), pageKey);
      if first.Some? && first.value.component.Some? then Component(first.value.component.value) else NotFound
  }

  /** Position i holds the first link with the key. */
  predicate FirstIndexOf(links: seq<NavLink>, key: string, i: int) {
    0 <= i < |links| && links[i].key == key && forall j :: 0 <= j < i ==> links[j].key != key
  }

  /** `links.find(l => l.key === key)` */
  function FirstWithKey(links: seq<NavLink>, key: string): (r: Option<NavLink>)
    ensures r.None? <==> forall i :: 0 <= i < |links| ==> links[i].key != key
    ensures r.Some? ==> exists i :: FirstIndexOf(links, key, i) && links[i] == r.value
  {
    if links == [] then None
    else if links[0].key == key then Some(links[0])
    else
      var r := FirstWithKey(links[1..], key);
      assert r.Some? ==> exists i :: FirstIndexOf(links, key, i) && links[i] == r.value by {
        if r.Some? {
          var i :| FirstIndexOf(links[1..], key, i) && links[1..][i] == r.value;
          assert links[i + 1] == r.value;
          forall j | 0 <= j < i + 1 ensures links[j].key != key {
            if j > 0 { assert links[j] == links[1..][j - 1]; }
          }
          assert FirstIndexOf(links, key, i + 1);
        }
      }
      r
  }

  /** The first page of a role after its profile loads, when its first link has a non-empty key. */
  function FirstPageKey(links: map<Role, seq<NavLink>>, role: Role): (r: Option<string>)
    ensures r.Some? <==> |LinksOf(links, role)| > 0 && LinksOf(links, role)[0].key != ""
    ensures r.Some? ==> r.value == LinksOf(links, role)[0].key
  {
    var ls := LinksOf(links, role);
    if |ls| > 0 && ls[0].key != "" then Some(ls[0].key) else None
  }

  /** A page reached from the sidebar's first link resolves to that link's component. */
  lemma FirstPageResolves(links: map<Role, seq<NavLink>>, role: Role)
    requires FirstPageKey(links, role).Some?
    requires LinksOf(links, role)[0].key != "Mon Profil" && LinksOf(links, role)[0].key != "Paramètres"
    ensures var link := LinksOf(links, role)[0];
      ResolvePage(link.key, links, role) == if link.component.Some? then Component(link.component.value) else NotFound
  {
  }

  /** What the shell renders. */
  datatype Screen = Loading | Login | Main(page: PageView)

  // -------------------------------------------------------- the state

  class Shell {
    var hasSession: bool
    var currentUser: Option<User>
    var loading: bool
    var currentPageKey: string
    var newOpModalOpen: bool
    var viewProofModalOpen: bool
    var proofImageUrl: JsValue
    var devOpTypeModalOpen: bool
    var editingOpTypeId: JsValue
    const links: map<Role, seq<NavLink>>

    constructor (links: map<Role, seq<NavLink>>)
      ensures this.links == links
      ensures !hasSession && currentUser.None? && loading && currentPageKey == ""
      ensures !newOpModalOpen && !viewProofModalOpen && !devOpTypeModalOpen
      ensures proofImageUrl == Null && editingOpTypeId == Null
    {
      this.links := links;
      hasSession, currentUser, loading, currentPageKey := false, None, true, "";
      newOpModalOpen, viewProofModalOpen, devOpTypeModalOpen := false, false, false;
      proofImageUrl, editingOpTypeId := Null, Null;
    }

    /** The loading screen first, then the login page without a session or profile, then the page for the current key. */
    function Render(): (s: Screen)
      reads this
      ensures s == Loading <==> loading
      ensures s == Login <==> !loading && (!hasSession || currentUser.None?)
      ensures s.Main? ==> s.page == ResolvePage(currentPageKey, links, RoleOf(currentUser.value))
    {
      if loading then Loading
      else if !hasSession || currentUser.None? then Login
      else Main(ResolvePage(currentPageKey, links, RoleOf(currentUser.value)))
    }

    /**
     * The end of a profile fetch (retries and error alerts left out): the
     * profile, or no user; a loaded profile moves to its role's first page
     * when that page has a key, and otherwise keeps the current key.
     */
    method ProfileLoaded(profile: Option<User>)
      modifies this
      ensures currentUser == profile
      ensures currentPageKey ==
        if profile.Some? && FirstPageKey(links, RoleOf(profile.value)).Some?
        then FirstPageKey(links, RoleOf(profile.value)).value else old(currentPageKey)
      ensures hasSession == old(hasSession) && loading == old(loading)
      ensures newOpModalOpen == old(newOpModalOpen) && viewProofModalOpen == old(viewProofModalOpen)
      ensures devOpTypeModalOpen == old(devOpTypeModalOpen)
      ensures proofImageUrl == old(proofImageUrl) && editingOpTypeId == old(editingOpTypeId)
    {
      currentUser := profile;
      if profile.Some? {
        var first := FirstPageKey(links, RoleOf(profile.value));
        if first.Some? {
          currentPageKey := first.value;
        }
      }
    }

    /** `handleLogout`: no user, no session, no page. */
    method Logout()
      modifies this
      ensures currentUser.None? && !hasSession && currentPageKey == ""
      ensures loading == old(loading) && newOpModalOpen == old(newOpModalOpen)
      ensures viewProofModalOpen == old(viewProofModalOpen) && devOpTypeModalOpen == old(devOpTypeModalOpen)
      ensures proofImageUrl == old(proofImageUrl) && editingOpTypeId == old(editingOpTypeId)
    {
      currentUser, hasSession, currentPageKey := None, false, "";
    }

    /** `handleNavigate` (the sidebar closing on narrow screens left out). */
    method Navigate(pageKey: string)
      modifies this
      ensures currentPageKey == pageKey
      ensures currentUser == old(currentUser) && hasSession == old(hasSession) && loading == old(loading)
      ensures newOpModalOpen == old(newOpModalOpen) && viewProofModalOpen == old(viewProofModalOpen)
      ensures devOpTypeModalOpen == old(devOpTypeModalOpen)
      ensures proofImageUrl == old(proofImageUrl) && editingOpTypeId == old(editingOpTypeId)
    {
      currentPageKey := pageKey;
    }

    /**
     * `handleAction`: opens the new-operation modal, the proof viewer (with
     * the given URL) or the operation-type editor (with the given id); any
     * other key changes nothing.
     */
    method HandleAction(actionKey: string, data: JsValue)
      modifies this
      ensures newOpModalOpen == (old(newOpModalOpen) || actionKey == "openNewOperationModal")
      ensures actionKey == "viewProof" ==> viewProofModalOpen && proofImageUrl == data
      ensures actionKey != "viewProof" ==> viewProofModalOpen == old(viewProofModalOpen) && proofImageUrl == old(proofImageUrl)
      ensures actionKey == "openDevOpTypeModal" ==> devOpTypeModalOpen && editingOpTypeId == data
      ensures actionKey != "openDevOpTypeModal" ==>
        devOpTypeModalOpen == old(devOpTypeModalOpen) && editingOpTypeId == old(editingOpTypeId)
      ensures currentUser == old(currentUser) && hasSession == old(hasSession)
      ensures loading == old(loading) && currentPageKey == old(currentPageKey)
    {
      if actionKey == "openNewOperationModal" {
        newOpModalOpen := true;
      }
      if actionKey == "viewProof" {
        proofImageUrl := data;
        viewProofModalOpen := true;
      }
      if actionKey == "openDevOpTypeModal" {
        editingOpTypeId := data;
        devOpTypeModalOpen := true;
      }
    }

    /**
     * `handleSaveNewOperation`: without a user nothing happens; a failed
     * upload aborts with an alert, clears `loading` and leaves the modal
     * open; otherwise the record is built with the uploaded URL (or none),
     * handed to the insert, and the modal closes whatever the insert says.
     */
    method SaveNewOperation(opTypeId: string, formData: map<string, JsValue>, upload: Upload, insertError: Option<string>)
      returns (inserted: Option<NewTransaction>, alert: Option<string>)
      modifies this
      ensures old(currentUser).None? ==>
        inserted.None? && alert.None? && loading == old(loading) && newOpModalOpen == old(newOpModalOpen)
      ensures old(currentUser).Some? && upload.UploadFailed? ==>
        inserted.None? && alert == Some("Erreur de téléversement: " + upload.message)
        && !loading && newOpModalOpen == old(newOpModalOpen)
      ensures old(currentUser).Some? && !upload.UploadFailed? ==>
        inserted == Some(BuildTransaction(old(currentUser).value.id, opTypeId, formData,
                                          if upload.Uploaded? then Some(upload.publicUrl) else None))
        && alert == Some(if insertError.Some? then insertError.value else "Opération soumise pour validation !")
        && !loading && !newOpModalOpen
      ensures currentUser == old(currentUser) && hasSession == old(hasSession) && currentPageKey == old(currentPageKey)
      ensures viewProofModalOpen == old(viewProofModalOpen) && devOpTypeModalOpen == old(devOpTypeModalOpen)
      ensures proofImageUrl == old(proofImageUrl) && editingOpTypeId == old(editingOpTypeId)
    {
      if currentUser.None? {
        return None, None;
      }
      loading := true;
      var proofUrl: Option<string> := None;
      match upload {
        case UploadFailed(message) =>
          loading := false;
          return None, Some("Erreur de téléversement: " + message);
        case Uploaded(url) =>
          proofUrl := Some(url);
        case NoFile =>
      }
      var record := BuildTransaction(currentUser.value.id, opTypeId, formData, proofUrl);
      inserted := Some(record);
      alert := Some(if insertError.Some? then insertError.value else "Opération soumise pour validation !");
      loading := false;
      newOpModalOpen := false;
    }
  }
}
