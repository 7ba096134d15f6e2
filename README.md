# Money-transfer dashboard: client-side rules

This project models in Dafny the rule logic that the money-transfer
dashboard's React client runs in its pages and modals. The dashboard has
agents, agency chefs, sub-administrators, a general administrator and
developers. The model covers:

- the validation queue: its three views, which action buttons each card
  offers to which viewer, what a click dispatches, and per-tab pagination;
- the new-operation form: validity, default seeding, the projected balance
  and the transaction record the application builds from it;
- the money-entry modals (commission transfer, chef self-recharge, agent
  recharge request, transaction rejection), as small state machines over a
  `number | ''` field with clamping, error flags and submit guards;
- the record editors (agency access lists, sub-administrator permissions,
  suspension dialogs, agent and agency builders, support requests);
- the list screens: filters, partitions, sorts, totals and the shared
  pagination rule (page p is `slice((p-1)*k, p*k)` and there are `ceil(n/k)`
  pages);
- the display helpers: `timeAgo`, `truncateText`, `capitalizeFirst`, the
  status badge and the route slug with its lossy inverse.

How the model is organised:

- Every source component is a module with the same role. Shared notions form
  four modules of their own:
  - `Wrappers`: optional values;
  - `Js`: truthiness, `Number()`, case mapping, `includes`, `trim`, decimal
    text;
  - `Lists`: `filter`, `find`, `slice`, pagination, sums and the two sorts;
  - `Domain`: the records of `src/types.ts`.
- Derived values (`useMemo`, render-time expressions) become pure functions.
- State that handlers update becomes a class whose methods state the whole
  new state with `old()`. Each such method is tied to a pure transition
  function, and lemmas prove the transition's properties.
- Fetched rows, uploads, the clock and the current user are parameters.
- Numbers are integers and status values are strings, because several tests
  are substring tests.

## Model

| member | source | states |
|---|---|---|
| Wrappers.Toggle | src/features/developpeur/DevManageOperationTypes.tsx:165-167 | the toggle opens x when x is not the open one, and closes everything exactly when x was open |
| Js.NatToString | src/features/admin/EditAgencyModal.tsx:42 | the decimal text of a natural number is non-empty, all digits, and has no leading zero |
| Js.ParseNatToString | src/features/admin/EditAgencyModal.tsx:42 | reading the decimal text back gives the number |
| Js.TrimSpec | src/features/admin/RejectTransactionModal.tsx:29 | `trim()` is empty exactly for an all-whitespace text, is a contiguous piece of it, and neither starts nor ends with whitespace |
| Js.Lower | src/features/admin/AdminAssignOpsToAgency.tsx:46 | `toLowerCase()` keeps the length and lower-cases each character on its own |
| Js.LowerCharSpec | src/features/admin/AdminAssignOpsToAgency.tsx:46 | a lowered character is never upper-case, other characters are kept, lowering is idempotent and upper-casing undoes it |
| Js.LowerIdempotent | src/features/admin/AdminAssignOpsToAgency.tsx:46 | lowering a lowered text changes nothing |
| Js.ContainsAt | src/components/common/StatusBadge.tsx:17 | `includes` holds when the piece occurs at some position |
| Js.ContainsWitness | src/components/common/StatusBadge.tsx:17 | when `includes` holds, there is a position where the piece occurs |
| Js.ContainsTrivial | src/features/chef_agence/ChefManageAgents.tsx:83-84 | every text includes '' and itself |
| Js.ContainsLength | src/components/common/StatusBadge.tsx:17 | an included piece is no longer than the text |
| Js.ContainsIgnoringCaseAtStart | src/features/chef_agence/ChefManageAgents.tsx:83-84 | a query that matches the start of a text up to case is found by the case-insensitive search |
| Js.EmptyQueryMatches | src/features/chef_agence/ChefManageAgents.tsx:83-84 | the empty query is found in every text |
| Js.TrimNoSpaceEnds | src/features/admin/RejectTransactionModal.tsx:29 | a text without whitespace at either end is its own `trim()` |
| Js.NumberOfIntToString | src/features/chef_agence/CreateEditAgentModal.tsx:37 | `Number(String(i))` is i for every integer, negative ones included |
| Js.ExponentNotation | src/App.tsx:171 | `Number('1e3')` is 1000: an exponent multiplies by a power of ten |
| Js.ZeroFractionNotation | src/App.tsx:171 | `Number('100.0')` is 100: zeros after the point leave an integer |
| Js.HexNotation | src/App.tsx:171 | `Number('0x10')` is 16: a `0x` prefix reads hexadecimal digits |
| Js.SignedHexIsNaN | src/App.tsx:171 | `Number('-0x10')` is NaN: no sign may precede a radix prefix |
| Js.NumberOfNegative | src/features/chef_agence/CreateEditAgentModal.tsx:37 | the text of a negative integer reads back as that integer |
| Js.NumberOfNatural | src/features/chef_agence/CreateEditAgentModal.tsx:37 | the text of a natural number reads back as that number |
| Lists.Filter | src/features/chef_agence/ChefManageAgents.tsx:80-88 | `filter` keeps only items that pass, and never more items than it was given |
| Lists.FilterMember | src/features/chef_agence/ChefManageAgents.tsx:80-88 | an item is kept exactly when it is in the list and passes |
| Lists.FilterAppend | src/features/chef_agence/ChefCommissions.tsx:52-57 | filtering a concatenation filters each part |
| Lists.FilterPartition | src/features/chef_agence/ChefManageAgentRecharges.tsx:78-79 | filtering by a test and by its negation splits the list's multiset exactly |
| Lists.FilterSingle | src/features/sous_admin/SousAdminDashboard.tsx:9 | a one-item list keeps its item exactly when it passes |
| Lists.FilterEmpty | src/features/admin/AdminGeneralDashboard.tsx:43-45 | nothing is kept exactly when no item passes |
| Lists.FilterAll | src/features/chef_agence/ChefManageAgents.tsx:80-88 | when every item passes, the list is kept whole and in order |
| Lists.FilterCongruent | src/features/chef_agence/ChefManageAgents.tsx:75-78 | two tests that agree on every item keep the same list |
| Lists.FilterFilter | src/features/sous_admin/SousAdminDashboard.tsx:9 | filtering twice is filtering once by the conjunction |
| Lists.CountSnoc | src/features/developpeur/DevManageOperationTypes.tsx:145-153 | one more item adds one to a count exactly when it passes |
| Lists.CountImplies | src/features/admin/AdminManageSubAdmins.tsx:120-121 | a stronger test never counts more |
| Lists.CountDisjoint | src/features/sous_admin/SousAdminDashboard.tsx:9-10 | two tests no item passes together count at most the list's length in total |
| Lists.EveryExact | src/features/agent/NewOperationModal.tsx:68-70 | `every` holds exactly when each item passes |
| Lists.Find | src/features/admin/AdminManageAgencies.tsx:90 | `find` gives nothing exactly when no item passes, and otherwise the first passing item |
| Lists.FindFirst | src/features/admin/AdminQueue.tsx:97 | when item k passes and none before it does, `find` gives item k |
| Lists.SumAppend | src/features/admin/AdminGeneralDashboard.tsx:40 | the sum of a concatenation is the sum of its parts |
| Lists.SumFilterSnoc | src/features/chef_agence/ChefCommissions.tsx:52-57 | one more item adds its value to a filtered sum exactly when it passes |
| Lists.SumNonNegative | src/features/chef_agence/ChefManageAgents.tsx:90-95 | with no negative value the sum is non-negative and at least each value |
| Lists.SliceIndex | src/features/agent/RequestRechargeModal.tsx:77-78 | a `slice` bound lies within the list and an in-range bound is kept |
| Lists.Slice | src/features/agent/RequestRechargeModal.tsx:77-78 | a slice is never longer than the list |
| Lists.TakeFirst | src/features/agent/RequestRechargeModal.tsx:77-78 | `slice(0, k)` is the first k items, or the whole list when it is shorter |
| Lists.PageCount | src/features/admin/AdminQueue.tsx:118 | `Math.ceil(n / k)` pages hold all n items, the last page is not empty, and there are no pages exactly for no items |
| Lists.PageSpec | src/features/admin/AdminQueue.tsx:118-119 | page p from 1 holds at most k items, the items from position (p-1)k in order; it is empty exactly past the last page and full before it |
| Lists.PageOfItem | src/features/admin/AdminQueue.tsx:118-119 | item i is on page i / k + 1, at position i mod k |
| Lists.PageZero | src/features/admin/AdminQueue.tsx:119 | page 0 is empty |
| Lists.SearchChange | src/features/admin/AdminManageSubAdmins.tsx:115-118 | typing a search term sets it and goes back to page 1 |
| Lists.SortDesc | src/features/chef_agence/ChefManageAgentRecharges.tsx:76 | the sort by descending key returns the same items, key descending |
| Lists.InsertDesc | src/features/chef_agence/ChefManageAgentRecharges.tsx:76 | insertion adds exactly the new item |
| Lists.InsertDescSorted | src/features/chef_agence/ChefManageAgentRecharges.tsx:76 | insertion keeps a descending list descending |
| Lists.FilterSortedDesc | src/features/chef_agence/ChefManageAgentRecharges.tsx:76-79 | filtering keeps a descending list descending |
| Lists.SlicePrefixSortedDesc | src/features/chef_agence/ChefCommissions.tsx:61-62 | a prefix of a descending list is descending |
| Lists.LexLeTotal | src/features/admin/AdminAssignOpsToAgency.tsx:43 | the default string order of `sort()` compares any two strings |
| Lists.LexLeAntisymmetric | src/features/admin/AdminAssignOpsToAgency.tsx:43 | two strings each ordered before the other are equal |
| Lists.LexLeTransitive | src/features/admin/AdminAssignOpsToAgency.tsx:43 | the string order is transitive |
| Lists.InsertString | src/features/admin/AdminAssignOpsToAgency.tsx:43 | insertion into a sorted list of strings keeps it sorted and adds exactly the new string |
| Lists.SortStrings | src/features/admin/AdminAssignOpsToAgency.tsx:43 | `sort()` returns the same strings in ascending order |
| Lists.SortedUnique | src/features/admin/AdminAssignOpsToAgency.tsx:43 | two sorted lists with the same strings are equal |
| Lists.SortStringsEqualIff | src/features/admin/AdminAssignOpsToAgency.tsx:43 | two lists sort to the same list exactly when they hold the same strings with the same multiplicities |
| Domain.LoadOperationType | src/features/developpeur/DevManageOperationTypes.tsx:123-127 | loading keeps every column, turns missing fields into [] and a missing commission configuration into `{ type: 'none' }` |
| Domain.UserIds | src/features/chef_agence/ChefCommissions.tsx:33 | the id list has one id per profile, in order |
| Domain.AgencyAgentsMember | src/features/admin/AdminManageAgencies.tsx:91 | an agency's agents are exactly the agent profiles whose agency id is that agency |
| Domain.UserByIdFinds | src/features/admin/AdminManageAgencies.tsx:90 | with unique ids, the lookup by a profile's id finds that profile |
| Formatters.ElapsedSeconds | src/utils/formatters.ts:12-14 | the elapsed whole seconds are the floor of the millisecond difference divided by 1000, also for a date in the future |
| Formatters.BucketMonotone | src/utils/formatters.ts:16-21 | a longer elapsed time never falls in a smaller unit |
| Formatters.FutureIsJustNow | src/utils/formatters.ts:14-16 | under a minute, and any date in the future, reads 'À l'instant' |
| Formatters.BucketCountRange | src/utils/formatters.ts:17-21 | the count shown is at least 1 and below the next unit: 1-59 min, 1-23 h, 1-29 j, 1-12 mois |
| Formatters.TimeAgoText | src/utils/formatters.ts:17-21 | from a minute on, the text is 'Il y a ' then the floor of the elapsed time in the chosen unit, then the unit |
| Formatters.TruncateText | src/utils/formatters.ts:43-46 | a text within the limit is kept; a longer one is its first `limit` characters (none for a negative limit) followed by '...' |
| Formatters.TruncateBound | src/utils/formatters.ts:43-46 | for a non-negative limit the result has at most limit + 3 characters and starts with the text's first `limit` characters |
| Formatters.CapitalizeFirst | src/utils/formatters.ts:48-50 | the length is kept, the first character is upper-cased and the rest is unchanged |
| Formatters.UpperCharIdempotent | src/utils/formatters.ts:49 | upper-casing a character twice is upper-casing it once |
| Formatters.CapitalizeIdempotent | src/utils/formatters.ts:48-50 | capitalizing twice is capitalizing once |
| Formatters.GenerateAvatarUrl | src/utils/formatters.ts:52-55 | an absent or empty seed gives the fixed 'U' avatar, any other seed the avatar for that seed |
| Navigation.Slug | src/hooks/useNavigation.ts:9 | every run of whitespace becomes one '-': no whitespace is left and the text never grows |
| Navigation.SlugNoSpace | src/hooks/useNavigation.ts:9 | a text without whitespace is its own slug |
| Navigation.SlugJoin | src/hooks/useNavigation.ts:9 | a word, a run of whitespace and a rest starting with a non-space become the word, '-' and the rest's slug |
| Navigation.RoutePath | src/hooks/useNavigation.ts:9 | the route starts with '/', has no whitespace and is at most one character longer than the page key |
| Navigation.NavigateTo | src/hooks/useNavigation.ts:8-17 | the call goes to the route path, and carries the data as state exactly when the data is truthy |
| Navigation.DashesToSpaces | src/hooks/useNavigation.ts:22 | every '-' becomes a space and every other character is kept |
| Navigation.Split | src/hooks/useNavigation.ts:22 | `split(' ')` gives at least one piece |
| Navigation.JoinSplit | src/hooks/useNavigation.ts:22-24 | joining the pieces of `split(' ')` with ' ' gives the text back |
| Navigation.SplitNoSeparator | src/hooks/useNavigation.ts:22 | no piece contains a space |
| Navigation.CapitalizeAll | src/hooks/useNavigation.ts:22-24 | one capitalized word per word, in order |
| Navigation.JoinCapitalizeLength | src/hooks/useNavigation.ts:22-24 | capitalizing the words keeps the joined length |
| Navigation.JoinNoDash | src/hooks/useNavigation.ts:24 | joining words without '-' gives a text without '-' |
| Navigation.CapitalizeNoDash | src/hooks/useNavigation.ts:23 | capitalizing a word without '-' adds no '-' |
| Navigation.GetCurrentPageShape | src/hooks/useNavigation.ts:19-25 | the page name has no '-' and is one character shorter than the path |
| Navigation.RoundTripLossy | src/hooks/useNavigation.ts:8-25 | the route of the page key 'A b' is '/a-b', but the page read back from '/a-b' is 'A B', not 'A b' |
| StatusBadge.GetStatusConfig | src/components/common/StatusBadge.tsx:14-46 | each of the four tones has its own icon; only the neutral badge has the info icon, and its label is 'Statut: ' followed by the raw status; the other three carry one of the fixed labels 'Statut: Validé', 'Statut: En attente', 'Statut: Rejeté' |
| StatusBadge.ToneOrder | src/components/common/StatusBadge.tsx:15-45 | on the lower-cased status, the success words are checked first, then the pending words, then the failure words, and the rest is neutral |
| StatusBadge.ToneIgnoresCase | src/components/common/StatusBadge.tsx:15 | the tone of a status is the tone of its lower-cased form |
| StatusBadge.InactiveIsSuccess | src/components/common/StatusBadge.tsx:17 | 'inactive' contains 'active', so it gets the success badge |
| AdminQueue.ViewsExact | src/features/admin/AdminQueue.tsx:66-77 | the unassigned view holds exactly the items without assignee, the 'my tasks' view exactly those assigned to the viewer, and the full view every item |
| AdminQueue.ViewsDisjoint | src/features/admin/AdminQueue.tsx:66-77 | for a viewer with an id no item is in both the unassigned and the 'my tasks' view, so the two counts add up to at most the queue's size |
| AdminQueue.EmptyViewerOverlap | src/features/admin/AdminQueue.tsx:69-71 | an item assigned to '' is shown both as unassigned and as a task of a viewer whose id is '' |
| AdminQueue.ViewsStayInQueue | src/features/admin/AdminValidationTransactions.tsx:22 | every view of a queue of pending transactions and open requests is again such a queue |
| AdminQueue.VisibleTabs | src/features/admin/AdminQueue.tsx:241-243 | the unassigned and 'my tasks' tabs are always there, the 'all' tab exactly for the general administrator |
| AdminQueue.RenderedView | src/features/admin/AdminQueue.tsx:246-248 | nothing is rendered exactly when the 'all' tab is active for a viewer who is not the general administrator; otherwise the active tab's view |
| AdminQueue.HasKindAppend | src/features/admin/AdminQueue.tsx:195-219 | a button kind is in two button groups together exactly when it is in one of them |
| AdminQueue.ProofButtonsKinds | src/features/admin/AdminQueue.tsx:196 | the proof button is offered exactly for a transaction with a proof URL |
| AdminQueue.ClaimButtonsKinds | src/features/admin/AdminQueue.tsx:197-202 | an unassigned item offers 'assign-self', and 'assign-other' as well for the general administrator; an assigned one offers neither |
| AdminQueue.HolderButtonsKinds | src/features/admin/AdminQueue.tsx:203-216 | the holder of a request gets 'process-request' and 'unassign', the holder of a transaction 'validate', 'reject' and 'unassign'; anyone else none of these |
| AdminQueue.ReassignButtonsKinds | src/features/admin/AdminQueue.tsx:217-219 | 'assign-other' for reassignment is offered exactly to the general administrator on an item held by someone else |
| AdminQueue.OfferRuleExact | src/features/admin/AdminQueue.tsx:195-219 | each action is offered exactly under its rule of assignee, viewer, item kind and role, so only the holder can validate, reject, process or release |
| AdminQueue.ReassignCaption | src/features/admin/AdminQueue.tsx:217-219 | a 'Réassigner' button is shown exactly when the general administrator looks at an item held by someone else |
| AdminQueue.ButtonAttributes | src/features/admin/AdminQueue.tsx:196-218 | the proof button carries the transaction's proof URL; every other button carries the item's id and no URL |
| AdminQueue.TableOf | src/features/admin/AdminQueue.tsx:100 | a request is addressed in table 'requests', a transaction in 'transactions' |
| AdminQueue.DispatchKind | src/features/admin/AdminQueue.tsx:93-108 | a click on an action of the first item with a given id dispatches that action's effect for that item |
| AdminQueue.ButtonDispatch | src/features/admin/AdminQueue.tsx:79-108 | clicking any button the card offers dispatches that button's effect: the proof URL, a claim for the viewer, a release, the assignment modal, a simulated validation or rejection, or the processing modal |
| AdminQueue.UnknownIdIgnored | src/features/admin/AdminQueue.tsx:97-98 | an action on an id no item has does nothing |
| AdminQueue.GetHeaderInfo | src/features/admin/AdminQueue.tsx:136-140 | amber with "Non assignée" exactly for an unassigned item, blue with "Assignée à moi" exactly for the viewer's own, slate for an item held by someone else, whose name (or "undefined") is then shown |
| AdminQueue.HeaderMatchesViews | src/features/admin/AdminQueue.tsx:136-140 | the header colour agrees with the views: amber exactly in the unassigned view, blue exactly in 'my tasks' |
| AdminQueue.GetOperationIcon | src/features/admin/AdminQueue.tsx:32-38 | each icon exactly for the ids whose first matching keyword group (transfert; sde or facture; reabo or canal; woyofal) is its own, and 'fa-receipt' exactly for an id with none of the keywords |
| AdminQueue.ItemIcon | src/features/admin/AdminQueue.tsx:148 | a request shows 'fa-info-circle', a transaction its operation type's icon |
| AdminQueue.QueueView.constructor | src/features/admin/AdminQueue.tsx:41-43 | the page opens on the unassigned tab, nothing expanded, every tab on page 1 |
| AdminQueue.QueueView.PageChange | src/features/admin/AdminQueue.tsx:111-114 | only the given tab's page changes, the expanded card closes, the active tab stays |
| AdminQueue.QueueView.TabClick | src/features/admin/AdminQueue.tsx:232-235 | the tab becomes active, the expanded card closes, every page is kept |
| AdminQueue.QueueView.ToggleItem | src/features/admin/AdminQueue.tsx:163-166 | a card opens, or closes when it was the open one; tab and pages are kept |
| AdminQueue.ShownPage | src/features/admin/AdminQueue.tsx:116-126 | a tab's page shows at most five items, in order from its view, is empty exactly past the last page, and stays inside the queue |
| AdminDashboard.PendingValidations | src/features/admin/AdminGeneralDashboard.tsx:38 | the pending count is at most the number of transactions |
| AdminDashboard.PendingMember | src/features/admin/AdminGeneralDashboard.tsx:38 | a transaction is counted as pending exactly when its lower-cased status contains 'en attente' or 'assignée' |
| AdminDashboard.WaitingIsPending | src/features/admin/AdminGeneralDashboard.tsx:38 | the status 'En attente de validation' is counted |
| AdminDashboard.ClaimedIsPending | src/features/admin/AdminGeneralDashboard.tsx:38 | the status 'Assignée (validation en cours)' is counted |
| AdminDashboard.QueueStatusesCounted | src/features/admin/AdminGeneralDashboard.tsx:38 | every transaction of the validation queue is counted as pending |
| AdminDashboard.DecidedNotPending | src/features/admin/AdminGeneralDashboard.tsx:38 | a validated or rejected transaction is not counted as pending |
| AdminDashboard.TotalVolumeAppend | src/features/admin/AdminGeneralDashboard.tsx:40 | the total volume of two lists of transactions is the sum of their volumes |
| AdminDashboard.SuccessRateOf | src/features/admin/AdminGeneralDashboard.tsx:43-45 | the rate is 'N/A' exactly when no transaction is validated or rejected; otherwise the number of validated transactions out of the number of validated or rejected ones, at least one |
| AdminDashboard.NoneDecidedIff | src/features/admin/AdminGeneralDashboard.tsx:43-45 | both counts are 0 exactly when no status is 'Validé' or 'Rejeté' |
| AdminDashboard.WorkloadOf | src/features/admin/AdminGeneralDashboard.tsx:47-55 | one line per sub-administrator, in order, with the number of transactions assigned to them |
| AdminDashboard.Lines | src/features/admin/AdminGeneralDashboard.tsx:49-55 | each line pairs its sub-administrator with their task count |
| AdminDashboard.WorkloadCoversSubAdmins | src/features/admin/AdminGeneralDashboard.tsx:47-55 | a profile has a workload line exactly when it is a sub-administrator |
| AdminDashboard.RecentActivities | src/features/admin/AdminGeneralDashboard.tsx:57 | the first four log entries, or all of them when there are fewer |
| AgentDashboard.StatsOf | src/features/agent/AgentDashboard.tsx:98-106 | the month's count is at most the number of transactions |
| AgentDashboard.MonthMember | src/features/agent/AgentDashboard.tsx:98 | a transaction is in the month's list exactly when it was created at or after the start of the month |
| AgentDashboard.StatsSnoc | src/features/agent/AgentDashboard.tsx:98-100 | one more transaction adds its commission to the dues exactly when it is validated, and to the month's estimate and count exactly when it is from this month |
| AgentDashboard.MonthDuesWithinEstimate | src/features/agent/AgentDashboard.tsx:99-100 | when no validated transaction predates the month and no commission is negative, the dues (validated, any date) never exceed the month's estimate (this month, any status) |
| AgentDashboard.Recent | src/features/agent/AgentDashboard.tsx:138 | the first five transactions, or all of them when there are fewer |
| AgentDashboard.Details | src/features/agent/AgentDashboard.tsx:25-31 | the details line names the beneficiary, the bill or the decoder for the three known types, and is empty for any other type or for data that is not an object |
| AgentDashboard.Icon | src/features/agent/AgentDashboard.tsx:33-38 | an unknown type gets 'fa-receipt'; otherwise the first of 'Transfert', 'Paiement', 'abonnement' in the name decides ('fa-exchange-alt', 'fa-file-invoice-dollar', 'fa-tv'), and a name with none of them gets 'fa-receipt' |
| AgentDashboard.Sign | src/features/agent/AgentDashboard.tsx:52-53 | '-' exactly for a known type that impacts the balance, '+' otherwise |
| AgentRecharges.ChefRechargesMember | src/features/chef_agence/ChefManageAgentRecharges.tsx:74-75 | a request is listed exactly when it is addressed to this chef |
| AgentRecharges.SplitMember | src/features/chef_agence/ChefManageAgentRecharges.tsx:78-79 | the pending tab holds exactly the chef's requests in status 'En attente Chef Agence', the history tab exactly the others |
| AgentRecharges.SplitMultiset | src/features/chef_agence/ChefManageAgentRecharges.tsx:74-80 | the two tabs together hold the chef's requests, each exactly once |
| AgentRecharges.SplitSorted | src/features/chef_agence/ChefManageAgentRecharges.tsx:76-79 | both tabs are newest first |
| AgentRecharges.PendingPages | src/features/chef_agence/ChefManageAgentRecharges.tsx:84-88 | a pending page holds at most six requests, in order, and is empty exactly past the last page |
| AgentRecharges.HistoryPages | src/features/chef_agence/ChefManageAgentRecharges.tsx:91-95 | a history page holds at most ten requests, in order, and is empty exactly past the last page |
| AgentRecharges.ReasonCell | src/features/chef_agence/ChefManageAgentRecharges.tsx:107 | a rejected request shows its rejection reason, any other its motif, and '-' when that text is missing or empty |
| AgentRecharges.AgentNameCell | src/features/chef_agence/ChefManageAgentRecharges.tsx:101-104 | 'N/A' exactly when the agent is unknown, has an empty name or is literally named 'N/A'; any other cell is the agent's name |
| AgentRecharges.PendingCard | src/features/chef_agence/ChefManageAgentRecharges.tsx:12-25 | no card for a request whose agent is unknown; otherwise the card approves with the request and its agent and rejects with the request |
| AgentRecharges.PendingTab | src/features/chef_agence/ChefManageAgentRecharges.tsx:161-162 | the empty-state message shows exactly when nothing is pending; otherwise the grid holds the card slots of the requests on the shown page of six, in order, and the page count |
| AgentRecharges.PendingCards | src/features/chef_agence/ChefManageAgentRecharges.tsx:135-138 | one slot per request of the page, empty exactly when its agent is unknown |
| App.BuildTransaction | src/App.tsx:171-184 | the new record's principal is `Number(montant_transfert) \|\| 0`, with fee 250, total = principal + fee, commission 50, the agent, type, form data and proof URL given, and status 'En attente de validation' |
| App.PrincipalNotations | src/App.tsx:171 | an amount typed as '1e3' or '100.0' gives the principal 1000 or 100 |
| App.PrincipalFromAmountField | src/App.tsx:171 | an amount typed as the decimal text of n, or given as the number n, becomes principal n |
| App.PrincipalDefaultsToZero | src/App.tsx:171-180 | a missing or non-numeric amount gives principal 0 and total 250 |
| App.OtherFieldsIgnored | src/App.tsx:171 | only the 'montant_transfert' field decides the principal |
| App.ResolvePage | src/App.tsx:206-209 | 'Mon Profil' and 'Paramètres' give their fixed pages; any other key gives the component of the first link of the role with that key, or no page |
| App.FirstWithKey | src/App.tsx:209 | `find` on the role's links gives nothing exactly when no link has the key, and otherwise the first link that has it |
| App.FirstPageKey | src/App.tsx:79-80 | the first link's key, when the role has links and that key is not empty |
| App.FirstPageResolves | src/App.tsx:79-81 | the page opened after login is the first link's component |
| App.Shell.constructor | src/App.tsx:30-41 | no session, no user, loading, no page, every modal closed |
| App.Shell.Render | src/App.tsx:198-209 | the loading screen exactly while loading, the login page exactly without a session or a profile, and otherwise the resolved page |
| App.Shell.ProfileLoaded | src/App.tsx:76-85 | the profile becomes the current user, and its role's first page key, when there is one, becomes the page |
| App.Shell.Logout | src/App.tsx:143-148 | user, session and page are cleared and nothing else changes |
| App.Shell.Navigate | src/App.tsx:150-153 | only the page key changes |
| App.Shell.HandleAction | src/App.tsx:192-196 | the three known actions open their modal with their data; every other action changes nothing |
| App.Shell.SaveNewOperation | src/App.tsx:155-190 | nothing happens without a user; a failed upload alerts and stops; otherwise the built transaction is inserted, the outcome is alerted and the modal closes |
| AssignOps.SearchSpec | src/features/admin/AdminAssignOpsToAgency.tsx:45-53 | an agency, or an operation type, is listed exactly when its name contains the search text ignoring case; an empty search lists everything |
| AssignOps.CheckChange | src/features/admin/AdminAssignOpsToAgency.tsx:25-33 | checking appends the id; unchecking removes every copy of it and keeps every other id with its multiplicity |
| AssignOps.FilterOnly | src/features/admin/AdminAssignOpsToAgency.tsx:30 | filtering for one id keeps nothing but that id |
| AssignOps.AssignScreen.constructor | src/features/admin/AdminAssignOpsToAgency.tsx:13-23 | the first agency is selected, '' when there is none, its stored list is loaded, both searches are empty |
| AssignOps.AssignScreen.SelectAgency | src/features/admin/AdminAssignOpsToAgency.tsx:21-23 | the agency is selected; a different agency loads its stored list as the pending changes, the selected one clicked again keeps them; stored lists and both searches are kept |
| AssignOps.AssignScreen.Check | src/features/admin/AdminAssignOpsToAgency.tsx:25-33 | the pending changes follow the checkbox; nothing is stored |
| AssignOps.AssignScreen.Save | src/features/admin/AdminAssignOpsToAgency.tsx:35-41 | the pending list is stored for the selected agency, every other agency's list is unchanged, and the message names the agency |
| AssignOps.AssignScreen.IsSaveDisabled | src/features/admin/AdminAssignOpsToAgency.tsx:43 | saving is disabled exactly when the pending list and the stored list hold the same ids with the same multiplicities; both lists are sorted in place as a side effect, keeping their ids |
| ChefCommissions.CommissionsByAgent | src/features/chef_agence/ChefCommissions.tsx:52-57 | the loop builds the per-agent totals of the reference definition |
| ChefCommissions.ByAgentSkipsEmpty | src/features/chef_agence/ChefCommissions.tsx:53 | a transaction without agent id adds no entry |
| ChefCommissions.ByAgentKeys | src/features/chef_agence/ChefCommissions.tsx:52-57 | an agent has an entry exactly when some transaction is theirs |
| ChefCommissions.ByAgentStep | src/features/chef_agence/ChefCommissions.tsx:54 | one more transaction adds its commission to its own agent's total and to no other |
| ChefCommissions.ByAgentTotal | src/features/chef_agence/ChefCommissions.tsx:52-57 | an agent's total is the sum of the commissions of their transactions |
| ChefCommissions.ByAgentTotalSnoc | src/features/chef_agence/ChefCommissions.tsx:52-57 | the sum holds after one more transaction when it held before |
| ChefCommissions.WithTotals | src/features/chef_agence/ChefCommissions.tsx:59-61 | one line per agent, in order, with its total or 0 |
| ChefCommissions.LeaderboardShape | src/features/chef_agence/ChefCommissions.tsx:33-62 | at most five lines, highest total first, each an agent of the agency; the lines are a sub-multiset of the one-line-per-agent list, so an agent appears at most as often as in the agency list |
| ChefCommissions.LeaderboardLength | src/features/chef_agence/ChefCommissions.tsx:59-62 | the board shows min(n, 5) lines for n agency agents: the sorted list cut at five, so it is never shorter than it can be |
| ChefCommissions.LeaderboardTotals | src/features/chef_agence/ChefCommissions.tsx:40-62 | each line's total is the sum of that agent's validated commissions |
| ChefCommissions.BoardRowOfAgent | src/features/chef_agence/ChefCommissions.tsx:59-62 | each line is some agency agent paired with their total |
| ChefCommissions.LeaderboardIsTop | src/features/chef_agence/ChefCommissions.tsx:62 | an agent left off the board has no higher total than any line on it |
| ChefCommissions.PersonalCommissionsExact | src/features/chef_agence/ChefCommissions.tsx:97-103 | the chef's own list holds exactly their validated transactions with a positive commission, newest first |
| ChefHistory.AgentIds | src/features/chef_agence/ChefAgenceHistory.tsx:89-90 | the queried ids are the agency agents' ids and the chef's own |
| ChefHistory.HistoryScope | src/features/chef_agence/ChefAgenceHistory.tsx:77-96 | a chef without agency sees nothing; otherwise exactly the transactions of the chef and of the agency's agents, newest first |
| ChefHistory.SetFilter | src/features/chef_agence/ChefAgenceHistory.tsx:139-140 | a select or the search box changes its own filter and no other |
| ChefHistory.FilteredExact | src/features/chef_agence/ChefAgenceHistory.tsx:116-132 | a transaction is listed exactly when it matches the agent, type and status filters and the search |
| ChefHistory.InitialFiltersKeepAll | src/features/chef_agence/ChefAgenceHistory.tsx:70 | with the initial filters every transaction is listed |
| ChefHistory.SearchIgnoresCase | src/features/chef_agence/ChefAgenceHistory.tsx:125-128 | a search term and its lower-cased form match the same transactions |
| ChefHistory.PageOfHistory | src/features/chef_agence/ChefAgenceHistory.tsx:134-137 | a page holds at most ten transactions, in order from the filtered list |
| ChefHistory.HistoryView.constructor | src/features/chef_agence/ChefAgenceHistory.tsx:70-72 | initial filters, no row expanded, page 1 |
| ChefHistory.HistoryView.FilterChange | src/features/chef_agence/ChefAgenceHistory.tsx:139-142 | the filter changes and the list goes back to page 1; the expanded row stays |
| ChefHistory.HistoryView.RowToggle | src/features/chef_agence/ChefAgenceHistory.tsx:175 | a row opens, or closes when it was the open one; filters and page stay |
| ChefHistory.HistoryView.PageChange | src/features/chef_agence/ChefAgenceHistory.tsx:196 | only the page changes |
| ChefSelfRecharge.StoredAmount | src/features/chef_agence/ChefSelfRechargeModal.tsx:18-31 | a cleared field stays blank, a positive number is kept, anything else is stored as 0, so a stored amount is never negative |
| ChefSelfRecharge.PreviewNeverBelow | src/features/chef_agence/ChefSelfRechargeModal.tsx:33-44 | the previewed balance is never below the current one, and submit goes through exactly for a positive amount |
| ChefSelfRecharge.SelfRechargeForm.constructor | src/features/chef_agence/ChefSelfRechargeModal.tsx:15-16 | the field is blank and there is no error |
| ChefSelfRecharge.SelfRechargeForm.AmountChange | src/features/chef_agence/ChefSelfRechargeModal.tsx:18-31 | the field holds the stored amount and the error is cleared |
| ChefSelfRecharge.SelfRechargeForm.Submit | src/features/chef_agence/ChefSelfRechargeModal.tsx:33-42 | a positive amount is saved, the field cleared and the modal closed; anything else sets the error and keeps the field |
| CreateEditAgent.SeedDraft | src/features/chef_agence/CreateEditAgentModal.tsx:17-31 | a new agent starts with empty name and email, balance 0 and status 'active'; an edit starts from the agent's own fields |
| CreateEditAgent.NumberValue | src/features/chef_agence/CreateEditAgentModal.tsx:37 | `Number(value)` of the balance field: the number the text denotes, or NaN exactly when `Number` reads none |
| CreateEditAgent.ApplyChange | src/features/chef_agence/CreateEditAgentModal.tsx:33-39 | each input changes its own field only; the balance field stores `Number(value)` |
| CreateEditAgent.SoldeEntry | src/features/chef_agence/CreateEditAgentModal.tsx:37 | a cleared balance field stores 0 and the decimal text of n stores n |
| CreateEditAgent.AvatarSeed | src/features/chef_agence/CreateEditAgentModal.tsx:52 | one character: the upper-cased first letter of the name, or 'N' for an empty one |
| CreateEditAgent.SoldeOf | src/features/chef_agence/CreateEditAgentModal.tsx:50 | `solde \|\| 0`: the number, or 0 for NaN or a missing one |
| CreateEditAgent.BuildAgent | src/features/chef_agence/CreateEditAgentModal.tsx:41-58 | the record is an agent of this agency; it keeps the edited agent's non-empty id, or gets 'agent_' and the clock; name, email, balance and avatar come from the form with their defaults, and a missing status saves as 'active'; an edited agent keeps its creation date (or today), its counters (or 0) and a non-empty suspension reason (or none), a new agent is dated today with counters 0 and no reason |
| CreateEditAgent.CreateDefaults | src/features/chef_agence/CreateEditAgentModal.tsx:22-58 | saving the untouched creation form gives an empty active agent with balance 0 and avatar 'N' |
| CreateEditAgent.EditRoundTrip | src/features/chef_agence/CreateEditAgentModal.tsx:19-58 | saving an untouched edit gives back the same agent, attached to this agency |
| CreateEditAgent.AgentEditor.constructor | src/features/chef_agence/CreateEditAgentModal.tsx:14-15 | closed, nothing to edit, an empty draft |
| CreateEditAgent.AgentEditor.PropsChange | src/features/chef_agence/CreateEditAgentModal.tsx:17-31 | props that differ from the previous render and leave the dialog open seed the draft; closing, or the same props again, keep the typed draft |
| CreateEditAgent.AgentEditor.Change | src/features/chef_agence/CreateEditAgentModal.tsx:33-39 | the draft takes the change; the props stay |
| CreateEditAgent.AgentEditor.Submit | src/features/chef_agence/CreateEditAgentModal.tsx:41-61 | the saved agent is the one built from the draft |
| DevOpTypes.LoadAll | src/features/developpeur/DevManageOperationTypes.tsx:123-127 | one loaded type per fetched row, in order |
| DevOpTypes.Fetched | src/features/developpeur/DevManageOperationTypes.tsx:119-129 | a failed or empty fetch leaves no types; otherwise the loaded rows |
| DevOpTypes.LoadedDefaults | src/features/developpeur/DevManageOperationTypes.tsx:123-127 | missing fields load as [], a missing configuration as kind 'none', a present one unchanged, and id and status are kept |
| DevOpTypes.FilteredExact | src/features/developpeur/DevManageOperationTypes.tsx:135-143 | a type is listed exactly when the term is empty or in its name or description ignoring case, and the status filter is 'all' or its status |
| DevOpTypes.NoFilterKeepsAll | src/features/developpeur/DevManageOperationTypes.tsx:110-111 | with the initial search and status filter every type is listed |
| DevOpTypes.ComputeStats | src/features/developpeur/DevManageOperationTypes.tsx:145-153 | the loop computes the counts of the reference definition |
| DevOpTypes.StatsCounts | src/features/developpeur/DevManageOperationTypes.tsx:145-153 | total counts every type; active, inactive and archived count the types with exactly that status |
| DevOpTypes.StepCounts | src/features/developpeur/DevManageOperationTypes.tsx:146-151 | one step adds one to the total and one to the counter of its status, if any |
| DevOpTypes.StatsBound | src/features/developpeur/DevManageOperationTypes.tsx:145-153 | active + inactive + archived is at most the total, which is the number of types |
| DevOpTypes.PageOfOpTypes | src/features/developpeur/DevManageOperationTypes.tsx:155-158 | a page holds at most five types, in order from the filtered list |
| DevOpTypes.ButtonCall | src/features/developpeur/DevManageOperationTypes.tsx:170-180 | a button without action or id does nothing; a call carries the button's id |
| DevOpTypes.RowButtonsDispatch | src/features/developpeur/DevManageOperationTypes.tsx:178-180 | edit opens the type modal, duplicate and toggle pass their action on, and any other action does nothing |
| DevOpTypes.RenderCommission | src/features/developpeur/DevManageOperationTypes.tsx:28-67 | nothing is shown exactly for an unknown kind; 'none' shows 'Aucune commission', a fixed commission its amount, a percentage its rate, and 'tiers' the table of its tiers (none when absent) |
| DevOpTypes.LoadedWithoutConfigShowsNone | src/features/developpeur/DevManageOperationTypes.tsx:126 | a type loaded without configuration shows 'Aucune commission' |
| DevOpTypes.OpTypesPage.constructor | src/features/developpeur/DevManageOperationTypes.tsx:110-113 | empty search, status 'all', nothing expanded, page 1 |
| DevOpTypes.OpTypesPage.PageChange | src/features/developpeur/DevManageOperationTypes.tsx:160-163 | the page changes and the expanded row closes; the filters stay |
| DevOpTypes.OpTypesPage.SearchInput | src/features/developpeur/DevManageOperationTypes.tsx:219 | the term changes, the list goes back to page 1 and the expanded row closes |
| DevOpTypes.OpTypesPage.StatusSelect | src/features/developpeur/DevManageOperationTypes.tsx:228 | the status filter changes, the list goes back to page 1 and the expanded row closes |
| DevOpTypes.OpTypesPage.RowToggle | src/features/developpeur/DevManageOperationTypes.tsx:165-167 | a row opens, or closes when it was the open one |
| DevOpTypes.OpTypesPage.TableClick | src/features/developpeur/DevManageOperationTypes.tsx:169-188 | a button click dispatches its call and toggles nothing; a row click with an id toggles that row |
| EditAgency.AvailableChefsExact | src/features/admin/EditAgencyModal.tsx:19-21 | exactly the chefs without agency or of this agency are offered |
| EditAgency.ChefOptions | src/features/admin/EditAgencyModal.tsx:78-83 | every option is a known profile; the options start with the available chefs' ids in order, add at most one more, and a value is offered exactly when it is an available chef's id or the current chef's id, when set and known |
| EditAgency.CurrentChefOffered | src/features/admin/EditAgencyModal.tsx:81-83 | the agency's current chef is always among the options when the profile exists |
| EditAgency.LastThreeDigits | src/features/admin/EditAgencyModal.tsx:42 | `toString().slice(-3)` is one to three digits |
| EditAgency.LastThreeDigitsValue | src/features/admin/EditAgencyModal.tsx:42 | from 100 on it is three digits reading as the clock value modulo 1000 |
| EditAgency.SavedAgency | src/features/admin/EditAgencyModal.tsx:39-45 | the saved agency has the form's name and chef, and keeps its id or gets 'AG' and the clock's last three digits |
| EditAgency.AgencyEditor.constructor | src/features/admin/EditAgencyModal.tsx:16-17 | closed, no agency, empty name, chef '' |
| EditAgency.AgencyEditor.PropsChange | src/features/admin/EditAgencyModal.tsx:23-37 | when the props differ from the previous render, opening on a known agency loads its name and chef and opening for a new one resets both; anything else, including the same props again, keeps them |
| EditAgency.AgencyEditor.NameChange | src/features/admin/EditAgencyModal.tsx:65 | only the name changes |
| EditAgency.AgencyEditor.ChefChange | src/features/admin/EditAgencyModal.tsx:75 | only the chef changes |
| EditAgency.AgencyEditor.Submit | src/features/admin/EditAgencyModal.tsx:39-48 | the saved agency is built from the form, and the modal closes |
| NewOperation.ValidityExact | src/features/agent/NewOperationModal.tsx:62-75 | valid exactly when a type is selected, every required field holds a non-empty value and a proof is attached when the type requires one |
| NewOperation.SeedSpec | src/features/agent/NewOperationModal.tsx:83-88 | a field is seeded exactly when some field of the type with that name has a default value, and it holds the last such default |
| NewOperation.SeedFilled | src/features/agent/NewOperationModal.tsx:83-88 | every seeded value counts as filled for the validity check |
| NewOperation.BalanceFollowsAmount | src/features/agent/NewOperationModal.tsx:113-116 | typing n into the first amount field makes the displayed balance the balance minus n |
| NewOperation.DebitOfAmount | src/features/agent/NewOperationModal.tsx:115-116 | the displayed balance is the balance minus the current amount |
| NewOperation.OtherFieldKeepsAmount | src/features/agent/NewOperationModal.tsx:113-114 | typing into any other field leaves the current amount as it was |
| NewOperation.AmountOfTyped | src/features/agent/NewOperationModal.tsx:113-114 | the current amount reads back the integer typed into the first amount field |
| NewOperation.TypedAmountReadsBack | src/features/agent/NewOperationModal.tsx:114 | a typed integer is read back by `Number(...) \|\| 0` as itself |
| NewOperation.NoAmountFieldNoDebit | src/features/agent/NewOperationModal.tsx:113-116 | a type with no amount field debits nothing |
| NewOperation.TypeWithId | src/features/agent/NewOperationModal.tsx:79 | the first available type with the id, as `find` returns it, and none exactly when no available type has the id |
| NewOperation.NewOperationForm.constructor | src/features/agent/NewOperationModal.tsx:20-25 | no type, empty data, no proof, invalid |
| NewOperation.NewOperationForm.Close | src/features/agent/NewOperationModal.tsx:53-60 | closing clears the type, the data and the proof, and the form is invalid |
| NewOperation.NewOperationForm.OpTypeChange | src/features/agent/NewOperationModal.tsx:77-91 | the type with the chosen id is selected and the data becomes its seeded defaults, or empty without a type; validity is recomputed |
| NewOperation.NewOperationForm.FieldChange | src/features/agent/NewOperationModal.tsx:93-96 | only the named entry changes, to the typed text; validity is recomputed |
| NewOperation.NewOperationForm.FileChange | src/features/agent/NewOperationModal.tsx:98-104 | only the proof changes; validity is recomputed |
| NewOperation.NewOperationForm.Submit | src/features/agent/NewOperationModal.tsx:106-111 | an invalid form saves nothing and keeps its state; a valid one saves the type id, the data and the proof, and is reset |
| RejectTransaction.ReasonMissingExact | src/features/admin/RejectTransactionModal.tsx:29 | a reason is missing exactly when it is empty or all white space |
| RejectTransaction.RejectDialog.constructor | src/features/admin/RejectTransactionModal.tsx:14-16 | the given transaction, empty reason, no error |
| RejectTransaction.RejectDialog.ReasonChange | src/features/admin/RejectTransactionModal.tsx:57-60 | the reason becomes the typed text and the error is cleared |
| RejectTransaction.RejectDialog.Close | src/features/admin/RejectTransactionModal.tsx:18-23 | reason and error are cleared |
| RejectTransaction.RejectDialog.Submit | src/features/admin/RejectTransactionModal.tsx:27-35 | a missing reason sets the error and confirms nothing; otherwise the transaction and the reason as typed are confirmed and the dialog is cleared |
| RequestRecharge.HistoryRows | src/features/agent/RequestRechargeModal.tsx:77-78 | at most five rows: the first five requests, in order |
| RequestRecharge.RequestForm.constructor | src/features/agent/RequestRechargeModal.tsx:17-18 | blank amount and empty reason |
| RequestRecharge.RequestForm.AmountChange | src/features/agent/RequestRechargeModal.tsx:45 | only the amount changes |
| RequestRecharge.RequestForm.ReasonChange | src/features/agent/RequestRechargeModal.tsx:57 | only the reason changes |
| RequestRecharge.RequestForm.Close | src/features/agent/RequestRechargeModal.tsx:20-25 | amount and reason are cleared |
| RequestRecharge.RequestForm.Submit | src/features/agent/RequestRechargeModal.tsx:27-33 | a positive amount sends the amount and the reason and clears the form; otherwise nothing is sent and nothing changes |
| ManageAgents.MyAgents | src/features/chef_agence/ChefManageAgents.tsx:75-78 | only agents of the chef's agency |
| ManageAgents.MyAgentsScope | src/features/chef_agence/ChefManageAgents.tsx:75-78 | for a chef with an agency these are that agency's agents; an agent is listed exactly when its agency id equals the chef's |
| ManageAgents.FilteredExact | src/features/chef_agence/ChefManageAgents.tsx:80-88 | an agent is listed exactly when the term is empty or in its name or email ignoring case, and the status filter is 'all' or its status |
| ManageAgents.InitialShowsAll | src/features/chef_agence/ChefManageAgents.tsx:80-88 | with the initial controls every agent of the chef is listed |
| ManageAgents.SharedFilterChange | src/features/chef_agence/ChefManageAgents.tsx:104-108 | the shared handler writes the typed text into the search term and, 'all' when empty, into the status filter |
| ManageAgents.SharedHandlerFiltersByText | src/features/chef_agence/ChefManageAgents.tsx:104-108 | through the shared handler, typed text other than 'all' lists only agents whose status is that text |
| ManageAgents.SharedHandlerHidesMatch | src/features/chef_agence/ChefManageAgents.tsx:104-108 | an active agent named Alice is hidden when 'alice' is typed, and found by the intended search |
| ManageAgents.SearchTyped | src/features/chef_agence/ChefManageAgents.tsx:104-108 | the intended search box: only the term changes, back to page 1 |
| ManageAgents.StatusChange | src/features/chef_agence/ChefManageAgents.tsx:134 | only the status filter changes, back to page 1 |
| ManageAgents.SearchKeepsStatus | src/features/chef_agence/ChefManageAgents.tsx:80-88 | after a search the listed agents match both the new term and the chosen status |
| ManageAgents.TotalBalanceSnoc | src/features/chef_agence/ChefManageAgents.tsx:91 | the total adds each agent's balance, a missing one as 0 |
| ManageAgents.TotalBalanceBounds | src/features/chef_agence/ChefManageAgents.tsx:91 | with no negative balance the total is non-negative and at least each agent's balance |
| ManageAgents.PageOfAgents | src/features/chef_agence/ChefManageAgents.tsx:98-102 | a page holds at most six agents, in order from the filtered list |
| ManageAgents.StatusBadge | src/features/chef_agence/ChefManageAgents.tsx:36 | 'Actif' exactly for an active agent |
| ManageAgents.SuspendLabel | src/features/chef_agence/ChefManageAgents.tsx:60 | 'Suspendre' or 'Activer' |
| ManageAgents.LabelMatchesDialog | src/features/chef_agence/ChefManageAgents.tsx:60 | the label says 'Suspendre' exactly when the dialog it opens suspends |
| ManageAgents.AgentsPage.constructor | src/features/chef_agence/ChefManageAgents.tsx:70-72 | empty search, status 'all', page 1 |
| ManageAgents.AgentsPage.SearchInput | src/features/chef_agence/ChefManageAgents.tsx:128 | as wired, typing in the search box applies the shared handler: the term and the status filter both take the text ('all' for an empty one), and the page goes back to 1 |
| ManageAgents.AgentsPage.IntendedSearchInput | src/features/chef_agence/ChefManageAgents.tsx:128 | the intended search box: only the term changes and the page goes back to 1; the status filter is kept |
| ManageAgents.AgentsPage.StatusSelect | src/features/chef_agence/ChefManageAgents.tsx:134 | the state moves as the status select says |
| ManageAgents.AgentsPage.PageChange | src/features/chef_agence/ChefManageAgents.tsx:98-102 | only the page changes |
| ManageAgencies.VolumeOf | src/features/admin/AdminManageAgencies.tsx:92 | a non-zero volume is the one recorded on the chef's profile, and a recorded volume is shown as is; anything else reads as 0 |
| ManageAgencies.AgencyData | src/features/admin/AdminManageAgencies.tsx:88-95 | one line per agency in order, with its chef lookup, its agent count and its volume |
| ManageAgencies.ChefJoin | src/features/admin/AdminManageAgencies.tsx:90 | a chef shown has the agency's chef id; none exactly when no profile has it; with unique ids it is that profile |
| ManageAgencies.AgentCountExact | src/features/admin/AdminManageAgencies.tsx:91 | the count is at most the number of profiles and counts exactly the agents attached to the agency |
| ManageAgencies.SearchExact | src/features/admin/AdminManageAgencies.tsx:97-103 | a card is shown exactly when the term is empty or in the agency's or the chef's name ignoring case |
| ManageAgencies.ChefLessMatchesByName | src/features/admin/AdminManageAgencies.tsx:97-103 | an agency without chef is found by its own name only |
| ManageAgencies.PageOfAgencies | src/features/admin/AdminManageAgencies.tsx:105-108 | a page holds at most eight cards, in order from the search result |
| ManageAgencies.SearchShowsFirstMatches | src/features/admin/AdminManageAgencies.tsx:97-113 | after a search the first eight matches are shown, in order, whatever page was open |
| ManageSubAdmins.SubAdmins | src/features/admin/AdminManageSubAdmins.tsx:97-100 | only sub-administrator profiles |
| ManageSubAdmins.SubAdminsExact | src/features/admin/AdminManageSubAdmins.tsx:97-100 | exactly the profiles whose role is sous_admin |
| ManageSubAdmins.SearchExact | src/features/admin/AdminManageSubAdmins.tsx:101-107 | a card is shown exactly when the term is empty or in its name or email ignoring case |
| ManageSubAdmins.SearchIgnoresCase | src/features/admin/AdminManageSubAdmins.tsx:101-107 | a term and its lower-cased form show the same cards |
| ManageSubAdmins.SearchShowsFirstMatches | src/features/admin/AdminManageSubAdmins.tsx:101-118 | after a search the first six matches are shown, in order, whatever page was open |
| ManageSubAdmins.AssignedTotal | src/features/admin/AdminManageSubAdmins.tsx:120 | at most the number of transactions |
| ManageSubAdmins.CompletedTotal | src/features/admin/AdminManageSubAdmins.tsx:121 | at most the number of transactions |
| ManageSubAdmins.CompletedTotalExact | src/features/admin/AdminManageSubAdmins.tsx:121 | with unique ids, a transaction counts towards the completed total exactly when its validator is a sub-administrator with a non-empty id |
| ManageSubAdmins.AssignedTotalExact | src/features/admin/AdminManageSubAdmins.tsx:120 | with unique ids, a transaction counts exactly when a sub-administrator holds it |
| ManageSubAdmins.CardWithinTotal | src/features/admin/AdminManageSubAdmins.tsx:120-150 | no card shows more tasks than the assigned total |
| ManageSubAdmins.StatusBadge | src/features/admin/AdminManageSubAdmins.tsx:40 | 'Actif' exactly for an active sub-administrator |
| ManageSubAdmins.SuspendLabel | src/features/admin/AdminManageSubAdmins.tsx:84 | 'Suspendre' or 'Réactiver' |
| ManageSubAdmins.LabelMatchesDialog | src/features/admin/AdminManageSubAdmins.tsx:74-84 | the label says 'Suspendre' exactly when the dialog suspends; a suspended one has permissions disabled, 'Réactiver' and 'Suspendu' |
| SousAdminDashboard.FiguresDisjoint | src/features/sous_admin/SousAdminDashboard.tsx:9-10 | for a viewer with an id the two figures, as written and corrected, count disjoint transactions |
| SousAdminDashboard.PendingHasCapitalE | src/features/sous_admin/SousAdminDashboard.tsx:9 | a status containing 'En attente' contains a capital E |
| SousAdminDashboard.ClaimedNotPending | src/features/sous_admin/SousAdminDashboard.tsx:9 | the claimed status 'Assignée (validation en cours)' does not contain 'En attente' |
| SousAdminDashboard.ClaimedValidationNotCounted | src/features/sous_admin/SousAdminDashboard.tsx:9-10 | a validation the viewer has claimed counts in neither figure, though the viewer's queue lists it under 'assigned to me' |
| SousAdminDashboard.ClaimedUncounted | src/features/sous_admin/SousAdminDashboard.tsx:9-10 | a claimed validation counts in neither figure |
| SousAdminDashboard.ClaimedQueued | src/features/sous_admin/SousAdminDashboard.tsx:9 | a validation the viewer has claimed is in the viewer's 'assigned to me' view of the validation queue |
| SousAdminDashboard.TxItems | src/features/admin/AdminValidationTransactions.tsx:22 | one queue item per transaction, in order |
| SousAdminDashboard.MyAssignedMatchesQueue | src/features/sous_admin/SousAdminDashboard.tsx:9 | the corrected figure is the size of the viewer's 'assigned to me' view of the validation queue |
| SousAdminDashboard.MineOfItems | src/features/sous_admin/SousAdminDashboard.tsx:9 | picking the viewer's items from the queue picks the viewer's transactions |
| SousAdminDashboard.WaitingCountedByBoth | src/features/sous_admin/SousAdminDashboard.tsx:9 | a validation still waiting and assigned to the viewer counts once in both definitions |
| SubAdminPermissions.FlagName | src/features/admin/SubAdminPermissionsModal.tsx:58-74 | each checkbox has the name of one of the two permissions |
| SubAdminPermissions.FlagNameInjective | src/features/admin/SubAdminPermissionsModal.tsx:58-74 | the two checkbox names differ, so a name identifies its permission |
| SubAdminPermissions.SetFlag | src/features/admin/SubAdminPermissionsModal.tsx:28-31 | the named permission takes the checkbox's value |
| SubAdminPermissions.SetFlagOnlyNamed | src/features/admin/SubAdminPermissionsModal.tsx:28-31 | the named permission takes the checkbox's value and the other is kept |
| SubAdminPermissions.SetFlagUnchanged | src/features/admin/SubAdminPermissionsModal.tsx:28-31 | writing a permission's own value back changes nothing |
| SubAdminPermissions.LoadedPermissions | src/features/admin/SubAdminPermissionsModal.tsx:22-26 | a sub-administrator's permissions, or both false without any |
| SubAdminPermissions.PermissionsDialog.constructor | src/features/admin/SubAdminPermissionsModal.tsx:14-20 | no sub-administrator and both permissions false |
| SubAdminPermissions.PermissionsDialog.SubAdminChange | src/features/admin/SubAdminPermissionsModal.tsx:22-26 | a different sub-administrator loads their permissions (or both false); none, or the same one again, keeps the flags as ticked |
| SubAdminPermissions.PermissionsDialog.CheckboxChange | src/features/admin/SubAdminPermissionsModal.tsx:28-31 | only the checkbox's permission changes |
| SubAdminPermissions.PermissionsDialog.Submit | src/features/admin/SubAdminPermissionsModal.tsx:33-39 | with a sub-administrator their id and the permissions are saved, none saves nothing; the dialog always closes |
| SubmitRequest.FormInvalidExact | src/features/common/SubmitRequestPage.tsx:92 | the submit button is disabled exactly when the subject or the description is empty |
| SubmitRequest.AttachmentCellOf | src/features/common/SubmitRequestPage.tsx:100 | no attachment cell exactly without a URL; the button carries the URL |
| SubmitRequest.ResponseCell | src/features/common/SubmitRequestPage.tsx:101 | the cell is never blank: it shows the administrator's response itself, or '-' when there is none |
| SubmitRequest.Rows | src/features/common/SubmitRequestPage.tsx:95-102 | one row per request, in order |
| SubmitRequest.HistoryRowsPage | src/features/common/SubmitRequestPage.tsx:47-51 | page p lists in order at most five rows, those of requests (p-1)*5 on, and is empty exactly past the last page |
| SubmitRequest.RowsOfWindow | src/features/common/SubmitRequestPage.tsx:95-102 | the rows of a window are the rows of the requests in it |
| SubmitRequest.TableClick | src/features/common/SubmitRequestPage.tsx:104-113 | `viewProof` with the URL exactly for a view-attachment button with a URL and a handler |
| SubmitRequest.RequestPage.constructor | src/features/common/SubmitRequestPage.tsx:19-23 | type 'probleme_technique', empty subject and description, no attachment, page 1 |
| SubmitRequest.RequestPage.TypeChange | src/features/common/SubmitRequestPage.tsx:122 | only the type changes |
| SubmitRequest.RequestPage.SubjectChange | src/features/common/SubmitRequestPage.tsx:132 | only the subject changes |
| SubmitRequest.RequestPage.DescriptionChange | src/features/common/SubmitRequestPage.tsx:136 | only the description changes |
| SubmitRequest.RequestPage.AttachmentChange | src/features/common/SubmitRequestPage.tsx:140 | only the attachment changes |
| SubmitRequest.RequestPage.PageChange | src/features/common/SubmitRequestPage.tsx:159 | only the page changes |
| SubmitRequest.RequestPage.Submit | src/features/common/SubmitRequestPage.tsx:53-90 | a failed upload alerts and inserts nothing; otherwise the request with the uploaded URL is inserted, an insert error alerts and keeps the form, success alerts and clears subject, description and attachment, which disables the button again |
| SuspendUser.ReasonSent | src/features/admin/SuspendUserModal.tsx:24-29 | a reason is sent exactly when the user is active, and it is the typed one |
| SuspendUser.ReactivationIgnoresReason | src/features/admin/SuspendUserModal.tsx:29 | a reactivation sends no reason whatever was typed |
| SuspendUser.SuspendDialog.constructor | src/features/admin/SuspendUserModal.tsx:13-14 | the given user and state, empty reason |
| SuspendUser.SuspendDialog.ReasonChange | src/features/admin/SuspendUserModal.tsx:51 | only the reason changes |
| SuspendUser.SuspendDialog.OpenChange | src/features/admin/SuspendUserModal.tsx:16-20 | closing clears the reason; opening keeps it |
| SuspendUser.SuspendDialog.Submit | src/features/admin/SuspendUserModal.tsx:27-31 | the user is confirmed with the reason for a suspension and none for a reactivation, and the dialog closes cleared |
| SuspendAgent.UndefinedStatusReactivates | src/features/chef_agence/SuspendAgentModal.tsx:21 | an agent without status is reactivated and no reason is sent |
| SuspendAgent.SuspendDialog.constructor | src/features/chef_agence/SuspendAgentModal.tsx:12-13 | the given agent and state, empty reason |
| SuspendAgent.SuspendDialog.ReasonChange | src/features/chef_agence/SuspendAgentModal.tsx:48 | only the reason changes |
| SuspendAgent.SuspendDialog.OpenChange | src/features/chef_agence/SuspendAgentModal.tsx:15-17 | closing clears the reason; opening keeps it |
| SuspendAgent.SuspendDialog.Submit | src/features/chef_agence/SuspendAgentModal.tsx:24-28 | the agent's id is confirmed with the reason for a suspension and none for a reactivation, and the dialog closes cleared |
| TransferCommissions.AfterChange | src/features/chef_agence/TransferCommissionsModal.tsx:25-42 | an input is stored as typed with no error exactly when it is blank or in range; the above-dues error exactly above defined dues, the negative error exactly below 0 otherwise; a rejected input becomes a bound (0 or the dues); for non-negative or undefined dues the stored amount is in range |
| TransferCommissions.ChangeSettles | src/features/chef_agence/TransferCommissionsModal.tsx:25-42 | what the field holds after any input is accepted unchanged and without error when typed again |
| TransferCommissions.ButtonMatchesGuard | src/features/chef_agence/TransferCommissionsModal.tsx:44-51 | for an amount the input handler can leave, the button is enabled exactly when submit accepts |
| TransferCommissions.MissingDuesAcceptAnyPositive | src/features/chef_agence/TransferCommissionsModal.tsx:33-46 | with `commissions_perso_dues` undefined no amount is above the dues: any positive amount is kept and passes the submit guard |
| TransferCommissions.PreviewConserves | src/features/chef_agence/TransferCommissionsModal.tsx:53-54 | with defined dues the previews move the amount from the commissions to the balance and keep their sum; with undefined dues the commissions preview is no number |
| TransferCommissions.TransferForm.constructor | src/features/chef_agence/TransferCommissionsModal.tsx:14-16 | the chef's dues (possibly undefined) and balance (possibly null), blank amount, no error |
| TransferCommissions.TransferForm.Open | src/features/chef_agence/TransferCommissionsModal.tsx:18-23 | opening pre-fills the dues (no number when they are undefined) and clears the error |
| TransferCommissions.TransferForm.AmountChange | src/features/chef_agence/TransferCommissionsModal.tsx:25-42 | the amount and the error move as the input handler says |
| TransferCommissions.TransferForm.Submit | src/features/chef_agence/TransferCommissionsModal.tsx:44-51 | a positive amount not above the dues is confirmed; otherwise the error asks for a valid amount; the amount is kept |

## Left out

- Supabase I/O: queries, inserts, storage uploads, RPC calls and authentication. Fetched rows, upload and insert outcomes, the clock and the current user are parameters of the operations that use them.
- The server-side workflows (validating, rejecting, approving a recharge, the commission transfer itself): the client only calls them, so neither balance movements nor terminal states are modelled.
- Commission computation: the client writes a fixed 50. The tier configuration is data only and no calculator is modelled.
- Concurrency: two sub-administrators claiming the same item, and the order in which async effects land.
- Floating point: the commission progress percentage and the success rate's `toFixed`. The success rate is modelled only as its 'N/A' case and its numerator and denominator.
- `Intl.NumberFormat`, `formatDate`, `formatCurrency` and `encodeURIComponent`: locale and encoding libraries. `formatAmount` is modelled only for its null case.
- Dates: `created_at` is an integer timestamp and the start of the month is a parameter. Date parsing and time zones are not modelled.
- Numbers are unbounded integers, so fractional amounts, `Infinity` and precision loss are not modelled.
- Number inputs: a `type="number"` field yields '' or a numeric text, so it is an `Entry` (blank, or an integer amount). `Number()` on free text is modelled separately, for the new-operation form and the amount fields of the agent editor.
- Js.StringToNumber: follows the StringToNumber grammar of section 7.1.4.1.1 of ECMA-262 (radix prefixes, point, exponent), but numbers are integers here, so a literal with a non-integer value ('1.5', '.5', '1e-1') and `Infinity` read as NaN instead of their values.
- Code units: strings are sequences of code points. `sort()` on strings (Lists.LexLe) compares UTF-16 code units, and `substring`/`charAt` (Formatters.TruncateText, Formatters.CapitalizeFirst, CreateEditAgent.AvatarSeed) count them, so the model differs from the page on characters outside the Basic Multilingual Plane.
- Case mapping covers ASCII and Latin-1 letters one character at a time, including ÿ ↔ Ÿ and the upper-casing of µ (U+00B5) to Μ (U+039C). Characters outside Latin-1, and ß, whose upper case 'SS' changes the length, are returned unchanged.
- Sort stability: the ordering lemmas for the recharge lists and the leaderboard speak of the order and the multiset, not of the relative order of equal keys.
- Markup: CSS classes, icons, the badge colours beyond their category, the table HTML, the formatted date column of the request history and the modal chrome.
- The profile-fetch retries, the error alerts around them and the sign-in and sign-up flows of `src/App.tsx`.
- Mock data files are not behaviour. Their lists are inputs to the dashboards that read them, and users are a list with unique ids where the source indexes a dictionary by id.
- Optional fields are one `None` case, so null and undefined are not told apart. Comparing a null id with an undefined one by `===` is false in JavaScript but equal in the model. This matters only for a chef without an agency in the agents page.
- An operation type's description is a text. A null description is not a separate case, since the search reads it as '' through `|| ''`.
- Navigation.RoundTripLossy: the lossy round trip is exhibited on the short key 'A b' rather than on 'Tableau de Bord', to keep the proof small. The loss is the same: a lower-case word after the first comes back capitalized.
- ManageAgencies.AgencyData: the page's profile query does not select `volume_agence_mois`, so on the running page every volume is 0. The model takes the profiles as given and keeps the `|| 0` rule.
- Effect dependencies: React compares `agentToEdit` and `subAdmin` by reference, the model by value (CreateEditAgent.AgentEditor.PropsChange, SubAdminPermissions.PermissionsDialog.SubAdminChange), so a new object with the same contents, which would re-run the effect in the page, does not re-run it in the model.
- Callers of the modals: every modal (commission transfer, chef self-recharge, recharge request, transaction rejection, agent and agency editors, sub-administrator permissions, user and agent suspension) is modelled on its own; the pages that mount them, if any, are not part of this model, so the props each receives are parameters.
- Thin forwarding modals, the queue wrappers (only their status predicates are kept), pure layout components and the debounce and throttle helpers.

## Findings

| source | as written | input that shows it | evidently intended | confidence | as-written member | corrected member |
|---|---|---|---|---|---|---|
| src/features/sous_admin/SousAdminDashboard.tsx:9-10 | both figures count only statuses containing 'En attente' | a validation the viewer claimed, with status 'Assignée (validation en cours)': the viewer's queue lists it under 'assigned to me', but 'Mes Validations Assignées' does not count it | 'Mes Validations Assignées' counts the validations the viewer holds in the validation queue | not executed | SousAdminDashboard.ClaimedValidationNotCounted | SousAdminDashboard.MyAssignedMatchesQueue |
| src/features/chef_agence/ChefManageAgents.tsx:104-108 | the search box uses the shared handler, which also writes the typed text into the status filter | an active agent named 'Alice' with 'alice' typed: the status filter becomes 'alice' and the agent is hidden | typing changes only the search term and keeps the chosen status | not executed | ManageAgents.SharedHandlerHidesMatch | ManageAgents.SearchKeepsStatus |
