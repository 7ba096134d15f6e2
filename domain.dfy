/**
 * The records the dashboard exchanges with its backend (its `types.ts`).
 * Timestamps are milliseconds since the epoch; optional and nullable fields
 * are `Option`s (`undefined` and `null` are both `None`).
 */
module Domain {
  import opened Wrappers
  import opened Js
  import opened Lists

  /** Delegation flags of a sub-administrator. */
  datatype Permissions = Permissions(canValidateTransactions: bool, canManageRequests: bool)

  /** A user profile: one constructor per role, as in the source's discriminated union. */
  datatype User =
    | Agent(id: string, name: string, email: string, avatarSeed: Option<string>,
            agencyId: Option<string>, solde: Option<int>, status: Option<string>,
            suspensionReason: Option<string>, creationDate: Option<string>,
            transactionsThisMonth: Option<int>, commissionsMoisEstimees: Option<int>,
            commissionsDues: Option<int>)
    | ChefAgence(id: string, name: string, email: string, avatarSeed: Option<string>,
                 agencyId: Option<string>, solde: Option<int>,
                 commissionsPersoDues: Option<int>, volumeAgenceMois: Option<int>,
                 commissionsAgenceMois: Option<int>, agentsActifs: Option<int>)
    | AdminGeneral(id: string, name: string, email: string, avatarSeed: Option<string>)
    | SousAdmin(id: string, name: string, email: string, avatarSeed: Option<string>,
                status: Option<string>, permissions: Option<Permissions>,
                suspensionReason: Option<string>)
    | Developpeur(id: string, name: string, email: string, avatarSeed: Option<string>)

  /** The profile of a sub-administrator (the source's `SousAdmin`). */
  type SousAdminProfile = u: User | u.SousAdmin? witness SousAdmin("", "", "", None, None, None, None)

  /** The profile of an agent (the source's `Agent`). */
  type AgentProfile = u: User | u.Agent?
    witness Agent("", "", "", None, None, None, None, None, None, None, None, None)

  datatype Role = RoleAgent | RoleChefAgence | RoleAdminGeneral | RoleSousAdmin | RoleDeveloppeur

  function RoleOf(u: User): Role {
    match u
    case Agent(_, _, _, _, _, _, _, _, _, _, _, _) => RoleAgent
    case ChefAgence(_, _, _, _, _, _, _, _, _, _) => RoleChefAgence
    case AdminGeneral(_, _, _, _) => RoleAdminGeneral
    case SousAdmin(_, _, _, _, _, _, _) => RoleSousAdmin
    case Developpeur(_, _, _, _) => RoleDeveloppeur
  }

  datatype Agency = Agency(id: string, name: string, chefId: Option<string>)

  datatype FieldType = TextField | NumberField | TelField | SelectField | DateField

  /** One input of an operation type's form; `defaultValue` is a string, a number or absent. */
  datatype FormField = FormField(id: string, title: string, name: string, fieldType: FieldType,
                                 required: bool, obsolete: bool, defaultValue: JsValue)

  datatype CommissionTier = CommissionTier(lower: int, upper: Option<int>, commission: JsValue)

  datatype CommissionConfig =
    CommissionConfig(kind: string, amount: Option<int>, rate: Option<real>, tiers: Option<seq<CommissionTier>>)

  datatype OperationType = OperationType(id: string, name: string, description: string,
                                         impactsBalance: bool, proofIsRequired: bool,
                                         status: string, fields: seq<FormField>,
                                         commissionConfig: CommissionConfig)

  /** An `operation_types` row as fetched: the JSON columns may be null. */
  datatype OperationTypeRow = OperationTypeRow(id: string, name: string, description: string,
                                               impactsBalance: bool, proofIsRequired: bool, status: string,
                                               fields: Option<seq<FormField>>,
                                               commissionConfig: Option<CommissionConfig>)

  /** The configuration of an operation type without commission (`{ type: 'none' }`). */
  const NoCommission := CommissionConfig("none", None, None, None)

  /** The load normalisation: missing fields become [] and a missing configuration `{ type: 'none' }`. */
  function LoadOperationType(row: OperationTypeRow): (r: OperationType)
    ensures r.id == row.id && r.name == row.name && r.description == row.description
    ensures r.impactsBalance == row.impactsBalance && r.proofIsRequired == row.proofIsRequired
    ensures r.status == row.status
    ensures r.fields == if row.fields.Some? then row.fields.value else []
    ensures r.commissionConfig == if row.commissionConfig.Some? then row.commissionConfig.value else NoCommission
  {
    OperationType(row.id, row.name, row.description, row.impactsBalance, row.proofIsRequired, row.status,
                  row.fields.GetOr([]), row.commissionConfig.GetOr(NoCommission))
  }

  /** A JSON column: an object with named members, or any other JSON value. */
  datatype Json = JObject(members: map<string, JsValue>) | JOther

  datatype Transaction = Transaction(id: string, createdAt: int, agentId: string, opTypeId: string,
                                     data: Json, montantPrincipal: int, frais: int, montantTotal: int,
                                     status: string, proofUrl: Option<string>, commissionGeneree: int,
                                     validateurId: Option<string>, motifRejet: Option<string>,
                                     assignedTo: Option<string>)

  datatype AgentRechargeRequest = AgentRechargeRequest(id: string, createdAt: int, agentId: string,
                                                       chefAgenceId: string, amount: int, status: string,
                                                       motif: Option<string>, rejectionReason: Option<string>,
                                                       processingDate: Option<string>)

  datatype Request = Request(id: string, createdAt: int, demandeurId: string, requestType: string,
                             sujet: string, description: string, attachmentUrl: Option<string>,
                             status: string, assignedTo: Option<string>, reponse: Option<string>,
                             resolvedById: Option<string>, resolutionDate: Option<string>)

  /** A navigation entry: a page (with a component) or an action button. */
  datatype NavLink = NavLink(key: string, title: string, component: Option<string>, action: Option<string>)

  /** The outcome of a storage upload: no file chosen, its public URL, or the failure message. */
  datatype Upload = NoFile | Uploaded(publicUrl: string) | UploadFailed(message: string)

  /** JavaScript truthiness of an optional string (`null`, `undefined` and `''` are falsy). */
  predicate Present(s: Option<string>) {
    s.Some? && s.value != ""
  }

  /** The status of a validated transaction. */
  const Validated := "Validé"

  function TxCreatedAt(t: Transaction): int {
    t.createdAt
  }

  function TxCommission(t: Transaction): int {
    t.commissionGeneree
  }

  /** `users.map(u => u.id)` */
  function UserIds(us: seq<User>): (r: seq<string>)
    ensures |r| == |us| && forall i :: 0 <= i < |us| ==> r[i] == us[i].id
  {
    if us == [] then [] else [us[0].id] + UserIds(us[1..])
  }

  /** The profiles with role agent whose agency is the given one. */
  function AgencyAgents(profiles: seq<User>, agencyId: string): seq<User> {
    Filter(profiles, (u: User) => u.Agent? && u.agencyId == Some(agencyId))
  }

  lemma AgencyAgentsMember(profiles: seq<User>, agencyId: string, u: User)
    ensures u in AgencyAgents(profiles, agencyId) <==> u in profiles && RoleOf(u) == RoleAgent && u.agencyId == Some(agencyId)
  {
    FilterMember(profiles, (u: User) => u.Agent? && u.agencyId == Some(agencyId), u);
  }

  /** `Object.values(users).find(u => u.id === id)`, also what `users[id]` gives for a record keyed by id. */
  function UserById(users: seq<User>, id: string): Option<User> {
    Find(users, (u: User) => u.id == id)
  }

  /** No two profiles share an id, as in a record keyed by id. */
  predicate UniqueIds(users: seq<User>) {
    forall i, j :: 0 <= i < |users| && 0 <= j < |users| && users[i].id == users[j].id ==> i == j
  }

  /** With unique ids, looking a profile up by its id finds that profile. */
  lemma UserByIdFinds(users: seq<User>, u: User)
    requires UniqueIds(users) && u in users
    ensures UserById(users, u.id) == Some(u)
  {
    var k :| 0 <= k < |users| && users[k] == u;
    FindFirst(users, (v: User) => v.id == u.id, k);
  }

  function IsSousAdmin(u: User): bool {
    u.SousAdmin?
  }

  /** The number of transactions assigned to the given user. */
  function TaskCount(txs: seq<Transaction>, id: string): nat {
    Count(txs, (t: Transaction) => t.assignedTo == Some(id))
  }
}
