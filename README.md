# A verified model of the CRM's access rules, deal pipeline and prospect filters

The system is a small CRM with an Express/Mongoose back end and a React
front end. It has three identity collections: super admins, admins and
managers, the managers being stored in `User`. It also has reference data
(business units and offices), deals that move through a per-unit pipeline
of stages, and a list of prospects (contacts).

This project models the core of that system in Dafny:

- the server's user, login, password-reset and reference-data handlers;
- the deal access policy (`checkDealPermissions` and the four deal routes)
  and the deal schema's defaults, `trim` setters and Business Brokers hooks;
- the client's session and permission predicates, the route guards and the
  sidebar;
- the kanban board with its drag-and-drop move;
- the new-deal form;
- the prospect search and filter panel.

Stateful parts are classes whose methods are specified against the old
state:

- `Identity.IdentityStore`, `Reference.ReferenceData` and
  `DealPolicy.DealStore` stand for the Mongo collections;
- `AuthContext.AuthState` stands for the session provider.

The drop's local reorder works in place on an array (`Kanban.MoveInPlace`).
The filter effect is a loop (`Contacts.ApplyFilters`). Both are proved
against specification functions.

Everything else in the front end is expression-shaped, so it is modelled as
functions with lemmas relating them. The lemmas also tie the two ends
together. Examples:

- every link the sidebar shows is a page whose guards let the user in;
- a kanban move sends an update the server's hook never rejects;
- a non-manager who picks the 'Business Brokers' unit on the form sends a
  deal the server's create checks refuse with 400.

The server as written sets no `req.user`, so `checkDealPermissions` answers
500 to every deal request before any handler runs
(`DealPolicy.EveryDealRequestFails`; see "## Findings"). Every other
deal-route result here is stated for a request that arrives with a caller,
as if an authentication layer had attached one.

Modules and files:

- `Common` (`common.dfy`): options, ECMAScript `trim`, ASCII case mapping,
  `startsWith`/`endsWith`/`includes`, `split`/`join` and `filter`.
- `Reference` (`reference.dfy`): business units and offices, and document
  ids as 24-digit hexadecimal text.
- `DealModel` (`deal_model.dfy`): the deal schema (models/Deals.js).
- `DealPolicy` (`deal_policy.dfy`): deal permissions and the deal routes.
- `Identity` (`identity.dfy`): the three identity collections and their
  routes.
- `AuthContext` (`auth.dfy`), `Routes` (`routes.dfy`) and `Layout`
  (`layout.dfy`): the client session, the route guards of App.js and the
  AdminLayout sidebar.
- `Kanban` (`kanban.dfy`), `CreateDeal` (`create_deal.dfy`) and `Contacts`
  (`contacts.dfy`): the deals board, the new-deal form and the prospects
  list.

Behaviours the model reproduces as the code has them:

- Login probes SuperAdmin, then Admin, then User. Password reset probes in
  the opposite order, so the two can pick different records for one email
  (`Identity.ProbeOrdersDisagree`).
- The PUT-user email check looks only in User.
- A role change to a role that is not in the User enum deletes the record
  everywhere and then answers 400.
- The pipeline table's key is 'Business Broker', while the deal hooks and
  the prospects guard test 'Business Brokers'.
- The kanban drop's indices count within one column but are applied to the
  whole list (`Kanban.ColumnIndexMovesAnotherCard`).
- The new-deal form's default unit overwrites a unit the user chose before
  the units arrived (`CreateDeal.DefaultUnitOverridesChoice`).
- The deal routes send their refusal text under `error`, while the new-deal
  form reads only `message`, so a refused create shows as the bare status
  (`CreateDeal.ServerRefusalShownAsStatus`).

Where the written specification and the code differ, the model follows the
code:

- Query values pass through the schema's setters, so the deal listing
  compares trimmed parameters (`DealPolicy.TrimAll`).
- The second disjunct of the update hook's test is implied by the first
  (`DealModel.UpdateHookIgnoresConditions`).

## Model

| member | source | states |
|---|---|---|
| DealModel.NewDeal | backend/models/Deals.js:3-60 | a new deal holds its five strings trimmed, `member` 'No', `probability` 0 and no business name |
| DealModel.SaveHook | backend/models/Deals.js:63-72 | rejects, with the Business Brokers message, exactly a 'Business Brokers' deal whose business name is absent or blank |
| DealModel.OtherUnitsAlwaysSave | backend/models/Deals.js:65 | a deal of any other unit always passes the save hook |
| DealModel.UpdateHook | backend/models/Deals.js:75-87 | rejects exactly an update that writes unit 'Business Brokers' with an absent or blank business name |
| DealModel.UpdateHookIgnoresConditions | backend/models/Deals.js:79-80 | whether the query is by `_id` never changes the update hook's verdict |
| DealModel.ApplyUpdate | backend/models/Deals.js:5-9 | an update keeps stored deals trimmed, leaves `member` and `probability` alone and changes no field it does not write |
| DealModel.Written | backend/models/Deals.js:5-9 | a written field holds a trimmed value |
| DealModel.StageOnlyUpdate | backend/models/Deals.js:75-87 | a stage-only update passes the update hook and changes only the stage, trimmed |
| DealPolicy.DealPermissions | backend/server.js:492-529 | a scope is attached exactly for a manager, holding their units and office |
| DealPolicy.CheckDealPermissions | backend/server.js:492-529 | without a caller the middleware answers 500 "Error checking permissions"; with one it passes on, attaching a scope exactly for a manager |
| DealPolicy.EveryDealRequestFails | backend/server.js:497 | with `req.user` as the server leaves it, the middleware answers 500 to every deal request |
| DealPolicy.TrimAll | backend/server.js:550-562 | each query value is the trimmed parameter, position by position |
| DealPolicy.BuildQuery | backend/server.js:532-578 | a deal matches the built query exactly when it is visible to the caller under the given parameters |
| DealPolicy.ManagerListingNarrowed | backend/server.js:550-562 | a manager sees only deals of their own units, and exactly those that also meet the office parameter, whatever units are asked for |
| DealPolicy.UnrestrictedListing | backend/server.js:550-562 | with no parameters, any role but manager sees every deal |
| DealPolicy.OfficeNarrows | backend/server.js:560-562 | an office parameter keeps exactly the visible deals of that (trimmed) office |
| DealPolicy.PluralWins | backend/server.js:553-558 | for non-managers the `businessUnits` parameter overrides `businessUnit` |
| DealPolicy.CreateCheck | backend/server.js:590-610 | 400 exactly for a missing field; for a manager, 403 for a foreign unit and then 403 for a foreign office; allowed otherwise |
| DealPolicy.UpdateCheck | backend/server.js:636-659 | non-managers always pass; a manager passes exactly for a deal of their office that the update does not move to another unit or office; denials are 403 |
| DealPolicy.DeleteCheck | backend/server.js:685-694 | allowed exactly for a non-manager or a manager of the deal's office; otherwise 403 with the office message |
| DealPolicy.ServerUpdate | backend/server.js:661-665 | the PUT handler forwards no business name |
| DealPolicy.BusinessBrokersNeverCreated | backend/server.js:612-613 | a POST whose unit trims to 'Business Brokers' always fails the save hook, because no business name is forwarded |
| DealPolicy.BusinessBrokersNeverUpdated | backend/server.js:661-665 | a PUT that names the 'Business Brokers' unit always fails the update hook |
| DealPolicy.ManagerUpdateKeepsPlace | backend/server.js:636-665 | after an allowed manager update the deal is still in its unit and in the manager's office, unless the body blanked those fields |
| DealPolicy.DealStore.List | backend/server.js:532-578 | the listing is exactly the stored deals visible to the caller, unchanged |
| DealPolicy.DealStore.Create | backend/server.js:581-618 | the create check's denial stores nothing; missing required fields or a hook rejection give 500 and store nothing; 201 stores the built deal under a fresh id |
| DealPolicy.DealStore.Update | backend/server.js:621-671 | 404 for an unknown id, 403 on denial, 500 on a hook rejection, each leaving the store unchanged; 200 applies the update to that deal only |
| DealPolicy.DealStore.Delete | backend/server.js:674-701 | 404 for an unknown id, 403 for a manager of another office, 200 removes exactly that deal |
| Reference.HexDigitValue | backend/server.js:183 | a hexadecimal digit denotes a value below 16 |
| Reference.NameById | backend/server.js:185-188 | the name of the record the hexadecimal id denotes, when it exists and is non-empty |
| Reference.ReferenceData.Create | backend/server.js:432-475 | an empty name gives 400 and no change; otherwise 201 and the new record under a fresh id, the other collection untouched |
| Reference.ReferenceData.Delete | backend/server.js:444-486 | 404 and no change for an unknown id; otherwise 200 and only that record removed |
| Identity.NormalizeEmail | backend/models/User.js:14-20 | a normalised email is empty exactly when the input is all whitespace, and is never longer |
| Identity.LowerKeepsSpace | backend/models/User.js:18-19 | lower-casing neither creates nor removes whitespace |
| Identity.NormalizeEmailIdempotent | backend/models/Admin.js:6 | normalising a normalised email changes nothing |
| Identity.Build | backend/models/User.js:3-40 | a built record holds the normalised email and the password as given |
| Identity.FindByEmail | backend/server.js:160-166 | `findOne` finds a record exactly when one holds the email, and it is that record |
| Identity.InsertKeepsUnique | backend/models/User.js:17 | adding a record with an unused email keeps emails unique |
| Identity.OverwriteKeepsUnique | backend/models/User.js:17 | replacing a record by one whose email no other record holds keeps emails unique |
| Identity.Probe | backend/server.js:160-166 | the probe chain fails exactly when no collection holds the email; otherwise it returns a record holding it from the first collection in order that does |
| Identity.SuperAdminShadowsLogin | backend/server.js:160-166 | login stops at a super admin holding the email |
| Identity.UserShadowsLookup | backend/server.js:713-722 | password reset stops at a manager holding the email |
| Identity.ProbeOrdersDisagree | backend/server.js:160-166 | when a super admin and a manager share an email, login and password reset pick different collections |
| Identity.Locate | backend/server.js:273-293 | an id is found exactly when some collection holds it, from User first, then Admin, then SuperAdmin |
| Identity.ResolveRef | backend/server.js:172-205 | a unit or office object yields its name; hexadecimal id text is replaced by the named record's name when one exists; any other text is kept |
| Identity.SessionOf | backend/server.js:207-215 | the login response holds the id, the role, "first last" as name, a one-element unit list and the office, resolved |
| Identity.CreateTarget | backend/server.js:63-71 | role 'admin' goes to Admin, 'super_admin' to SuperAdmin, any other role to User |
| Identity.MigrationTarget | backend/server.js:318-330 | a migration has a target exactly for a role in User's enum, and that target is the create target |
| Identity.Migrated | backend/server.js:306-316 | the migrated record keeps the old password |
| Identity.ApplyIdentityUpdate | backend/server.js:334-345 | the plain update keeps the password and every field it does not write, and stores a written email normalised |
| Identity.IdentityStore.Login | backend/server.js:154-220 | 200 with the session of the probe's hit exactly when its password matches; 401 otherwise |
| Identity.IdentityStore.CreateUser | backend/server.js:56-93 | 400 for an empty field or an email used in the target collection; 500 when the record fails validation; 201 inserts the built record under a fresh id |
| Identity.IdentityStore.Insert | backend/server.js:76-87 | adds one record under a fresh id to one collection only |
| Identity.IdentityStore.RemoveEverywhere | backend/server.js:297-304 | removes the id from every collection |
| Identity.IdentityStore.Overwrite | backend/server.js:338-344 | replaces one record of one collection |
| Identity.IdentityStore.UpdateUser | backend/server.js:254-371 | first 400 for an email used by another manager, then 404 for an unknown id; a role change deletes the record everywhere and then refuses an unknown role (400), fails validation (500) or saves it in the target collection under a new id (200); otherwise a plain update (200) |
| Identity.IdentityStore.UpdateSuperAdmin | backend/server.js:97-151 | 400 for an email held by another super admin, 404 for an unknown id; 200 updates only that super admin |
| Identity.IdentityStore.DeleteUser | backend/server.js:373-389 | 404 and no change for an unknown id; otherwise the record is removed from the collection it was found in |
| Identity.IdentityStore.ForgotPassword | backend/server.js:705-736 | 400 for an empty email or password, 404 when no collection holds the email; otherwise the first record in User, Admin, SuperAdmin order gets the new password (500 when that record fails validation) |
| AuthContext.Rank | frontend/src/context/AuthContext.js:34-47 | the three roles have a positive rank and no other role does |
| AuthContext.HasPermission | frontend/src/context/AuthContext.js:34-47 | a user has a required role's permission exactly when their rank is at least the required role's positive rank |
| AuthContext.PermissionMonotone | frontend/src/context/AuthContext.js:36-45 | super_admin permission implies admin permission, which implies manager permission |
| AuthContext.UnrankedRoleHasNoPermission | frontend/src/context/AuthContext.js:36-45 | a role outside the hierarchy passes no check |
| AuthContext.CanManageUsers | frontend/src/context/AuthContext.js:49-51 | exactly super admins, which is the super_admin permission |
| AuthContext.CanAccessBusinessUnit | frontend/src/context/AuthContext.js:53-57 | admins reach every unit; others exactly the units of their session |
| AuthContext.CanManageOffice | frontend/src/context/AuthContext.js:59-63 | admins manage every office; others exactly their own |
| AuthContext.AuthState.Restore | frontend/src/context/AuthContext.js:9-15 | the stored user becomes the session and loading ends |
| AuthContext.AuthState.Login | frontend/src/context/AuthContext.js:17-27 | the session keeps id, name and role, an empty unit list when none is given, and no office when it is absent or empty |
| AuthContext.AuthState.Logout | frontend/src/context/AuthContext.js:29-32 | the session is cleared |
| Routes.ProtectedRoute | frontend/src/App.js:18-34 | loading first, then redirect to '/' without a user, then to the dashboard without the required permission; renders exactly otherwise |
| Routes.CanAccessProspects | frontend/src/App.js:49-63 | admins always; a manager exactly when 'Business Brokers' is among their units; nobody else |
| Routes.ProspectsRoute | frontend/src/App.js:37-70 | renders exactly when not loading and the prospects rule holds |
| Routes.ProspectsNeedManagerRank | frontend/src/App.js:49-63 | reaching prospects implies the manager permission |
| Routes.RunGuards | frontend/src/App.js:79-106 | nested guards render exactly when every one of them renders |
| Routes.RouteKey | frontend/src/App.js:78-110 | the key a path is matched by: the path's ASCII-lower-cased characters, with only slashes dropped from its end and none left at its end |
| Routes.PageAt | frontend/src/App.js:78-110 | the empty path matches no route; any other path is looked up by its key |
| Routes.Visit | frontend/src/App.js:78-110 | a path that matches no route redirects to '/' |
| Routes.SpellingsAgree | frontend/src/App.js:78-110 | a path shows the same as its lower-cased spelling and as itself with a trailing slash added |
| Routes.MixedCaseUsersPath | frontend/src/App.js:85-89 | '/Admin-Dashboard/Users/' shows what '/admin-dashboard/users' shows |
| Routes.DashboardNeedsUser | frontend/src/App.js:79-84 | the dashboard renders exactly for a signed-in user |
| Routes.SuperAdminPages | frontend/src/App.js:85-106 | the users and business-setting pages render exactly for a super admin |
| Routes.ProspectsPages | frontend/src/App.js:90-99 | both prospects pages render exactly when the prospects rule holds |
| Routes.DealPages | frontend/src/App.js:100-109 | the deals page needs only a user; /deals/create renders always |
| Layout.ProspectsRulesAgree | frontend/src/components/AdminLayout.js:16-30 | the layout's copy of the prospects rule agrees with the router's for every user |
| Layout.NavLinks | frontend/src/components/AdminLayout.js:40-72 | Dashboard first and Deals always; Users and Business Settings exactly for a super admin; Prospects exactly when the prospects rule holds |
| Layout.LinksMatchGuards | frontend/src/components/AdminLayout.js:40-72 | for a signed-in user a link is listed exactly when its page renders |
| Layout.Avatar | frontend/src/components/AdminLayout.js:86 | one character: the upper-cased first letter of the name, '?' when there is no name or it is empty |
| Kanban.GlobalPropertiesWellFormed | frontend/src/components/Deals.js:13-18 | the pipeline starts with 'Enquiry' and has no duplicate stage |
| Kanban.AdvocacyWellFormed | frontend/src/components/Deals.js:19-22 | the pipeline starts with 'Enquiry' and has no duplicate stage |
| Kanban.FinanceWellFormed | frontend/src/components/Deals.js:23-26 | the pipeline starts with 'Enquiry' and has no duplicate stage |
| Kanban.BusinessBrokerWellFormed | frontend/src/components/Deals.js:27-30 | the pipeline starts with 'Enquiry' and has no duplicate stage |
| Kanban.PipelinesWellFormed | frontend/src/components/Deals.js:12-31 | every pipeline of the table is well formed |
| Kanban.NoBusinessBrokersPipeline | frontend/src/components/Deals.js:27 | the table has a 'Business Broker' key and no 'Business Brokers' key |
| Kanban.ClientFilter | frontend/src/components/Deals.js:95-105 | a manager keeps exactly the deals of their units; others with a selected unit keep exactly that unit's deals, otherwise all deals |
| Kanban.ClientFilterKeepsOrder | frontend/src/components/Deals.js:99-104 | the filter keeps the fetched order: filtering a concatenation is concatenating the filtered parts |
| Kanban.Column | frontend/src/components/Deals.js:124 | a column holds exactly the deals of that stage |
| Kanban.ChosenPipeline | frontend/src/components/Deals.js:121-123 | a manager's first unit, or the selected unit, chooses the pipeline; there is none exactly when that unit is not a key |
| Kanban.DealsByStage | frontend/src/components/Deals.js:123-126 | the buckets are exactly the given stages, each holding exactly that stage's deals in list order |
| Kanban.Board | frontend/src/components/Deals.js:121-126 | no pipeline gives no columns; otherwise one column per pipeline stage holding exactly that stage's deals, so a deal of another stage is on no column |
| Kanban.FindCard | frontend/src/components/Deals.js:135 | the index of the first deal with the id, or none when no deal has it |
| Kanban.DropGuard | frontend/src/components/Deals.js:130-145 | ignored exactly when there is no destination or the deal is not found; otherwise refused, with the office message, exactly for a manager whose office is not the deal's |
| Kanban.DisabledExactlyWhenRefused | frontend/src/components/Deals.js:240 | the board's one-line `isDragDisabled` test agrees with the drop handler's nested test: a card is non-draggable exactly when its drop is refused, and otherwise its drop is sent |
| Kanban.SpliceStart | frontend/src/components/Deals.js:165-166 | `splice` reads an in-range start as itself and never beyond the length |
| Kanban.RemoveAt | frontend/src/components/Deals.js:165 | removing one element shortens the list by one |
| Kanban.InsertAt | frontend/src/components/Deals.js:166-169 | inserting lengthens the list by one and puts the element at the clamped index |
| Kanban.MovedProperties | frontend/src/components/Deals.js:164-169 | a move keeps the length, puts the restaged deal at the destination and keeps every other deal in relative order |
| Kanban.MovedAt | frontend/src/components/Deals.js:164-169 | the moved list element by element: the shifted range and the untouched ends |
| Kanban.MoveInPlace | frontend/src/components/Deals.js:164-171 | the in-place shift leaves the array equal to the specified move |
| Kanban.OnDragEnd | frontend/src/components/Deals.js:129-176 | a guarded-off drop changes nothing and sends nothing, with the office error where it applies; otherwise it sends a stage-only update, and moves the list only when the server accepts it, reporting the failure otherwise |
| Kanban.ColumnIndexMovesAnotherCard | frontend/src/components/Deals.js:164-169 | dragging the first card of a second column moves the list's first card, which is in another column |
| CreateDeal.SameTableAsBoard | frontend/src/components/CreateDeal.js:14-33 | the form's table equals the board's, so it is well formed and has no 'Business Brokers' key |
| CreateDeal.InitialForm | frontend/src/components/CreateDeal.js:44-76 | the initial unit is the query's; stage, name and office are empty and probability is 0 |
| CreateDeal.FirstStage | frontend/src/components/CreateDeal.js:99 | 'Enquiry' exactly for a unit with a pipeline, "" otherwise |
| CreateDeal.StageUnit | frontend/src/components/CreateDeal.js:129-131 | a manager's first unit, or the chosen unit for anyone else |
| CreateDeal.HandleChange | frontend/src/components/CreateDeal.js:123-134 | the field takes the value and no other field changes, except that a unit change resets the stage to 'Enquiry' or "" by the unit's pipeline |
| CreateDeal.ManagerStageIgnoresChoice | frontend/src/components/CreateDeal.js:129-130 | for a manager every unit choice gives the same stage |
| CreateDeal.BusinessBrokersChoiceHasNoStage | frontend/src/components/CreateDeal.js:131 | a non-manager choosing 'Business Brokers' gets stage "" |
| CreateDeal.OnUnitsFetched | frontend/src/components/CreateDeal.js:94-100 | when the page opened without a unit, the first fetched unit and its first stage are set and nothing else changes; otherwise nothing changes |
| CreateDeal.DefaultUnitOverridesChoice | frontend/src/components/CreateDeal.js:94-100 | a unit chosen before the units arrive is overwritten by the first fetched one |
| CreateDeal.OnOfficesFetched | frontend/src/components/CreateDeal.js:114-116 | when the page opened without an office, the first fetched office is set and nothing else changes |
| CreateDeal.Decimal | frontend/src/components/CreateDeal.js:155 | the decimal text of a number is non-empty and all digits |
| CreateDeal.DecimalRoundTrip | frontend/src/components/CreateDeal.js:155 | reading back a number's decimal text gives the number |
| CreateDeal.NumberOrZero | frontend/src/components/CreateDeal.js:155 | blank text reads as 0 |
| CreateDeal.NumberOrZeroOfDecimal | frontend/src/components/CreateDeal.js:155 | a probability typed as a number's digits is submitted as that number |
| CreateDeal.HandleSubmit | frontend/src/components/CreateDeal.js:143-161 | a blank name is refused first, then a missing user; otherwise the payload has the trimmed name, the session's name as owner, the numeric probability, the form's unit and office or the first fetched ones, and every other field as in the form |
| CreateDeal.ServerBody | frontend/src/components/CreateDeal.js:172 | the owner the server reads is empty exactly when the session has no (or an empty) name |
| CreateDeal.BusinessBrokersDealRejected | frontend/src/components/CreateDeal.js:128-131 | a non-manager who picks 'Business Brokers' and submits is refused by the server with 400 |
| CreateDeal.ResponseError | frontend/src/components/CreateDeal.js:175-181 | 401 shows the authentication text; otherwise the server's message, or the status when there is none |
| CreateDeal.ServerRefusalShownAsStatus | frontend/src/components/CreateDeal.js:175-181 | a refusal of the server's create checks shows as "Server error: 400" or "Server error: 403", since the server sends its text under `error` |
| Contacts.SomeFieldMatches | frontend/src/components/Contacts.js:64-68 | true exactly when some listed field is non-empty and, lower-cased, contains the search |
| Contacts.NoSearchableFieldNoMatch | frontend/src/components/Contacts.js:66 | a contact without searchable fields matches no search |
| Contacts.SearchEffect | frontend/src/components/Contacts.js:57-72 | an empty search keeps every contact; any other keeps exactly the matching ones |
| Contacts.FieldsOf | frontend/src/components/Contacts.js:78 | the set of fields that have a filter |
| Contacts.FindField | frontend/src/components/Contacts.js:214 | the first position of a field's filter, or none exactly when it has none |
| Contacts.Lookup | frontend/src/components/Contacts.js:214-217 | a field without a filter reads as the empty filter; with distinct keys, the entry stored for the field |
| Contacts.Upsert | frontend/src/components/Contacts.js:211-219 | the field gets the entry, no other field's filter changes, existing keys keep their place and a new key is appended |
| Contacts.Toggle | frontend/src/components/Contacts.js:210-220 | flips `enabled`, fills in 'contains' for a missing operator, keeps the value and leaves other fields alone |
| Contacts.ToggleTwice | frontend/src/components/Contacts.js:210-220 | toggling twice restores the filter, with an operator filled in |
| Contacts.SetOperator | frontend/src/components/Contacts.js:221-229 | only that field's operator changes |
| Contacts.SetValue | frontend/src/components/Contacts.js:230-238 | only that field's value changes |
| Contacts.OperatorHolds | frontend/src/components/Contacts.js:83-93 | equals is equality, startsWith and endsWith are prefix and suffix tests, any other operator is substring |
| Contacts.OperatorsNested | frontend/src/components/Contacts.js:83-93 | equals implies startsWith and endsWith, each of which implies contains |
| Contacts.FilterStep | frontend/src/components/Contacts.js:78-96 | one more filter narrows the list by itself when active and not at all otherwise |
| Contacts.SearchStep | frontend/src/components/Contacts.js:98-107 | the search after the filters gives the shown list |
| Contacts.ApplyFilters | frontend/src/components/Contacts.js:75-109 | the result is the contacts passing every active filter and the search, in their original order |
| Contacts.FilterOrderIrrelevant | frontend/src/components/Contacts.js:78 | panels holding the same filters in any order show the same list |
| Contacts.InactiveFiltersLeaveSearch | frontend/src/components/Contacts.js:79 | with no active filter the panel shows what the search alone shows |
| Contacts.ShownKeepsOrder | frontend/src/components/Contacts.js:76-108 | the shown list is filtered element by element, so the original order is kept |
| Contacts.ToggleWithoutValueChangesNothing | frontend/src/components/Contacts.js:79 | enabling a filter that has no value does not change the list |

## Left out

- I/O of every kind is left out: HTTP, Express routing, MongoDB, `fetch`, `localStorage`, React rendering and effects scheduling. Server answers and fetched lists enter as parameters; stored collections are class fields.
- No authentication layer is modelled. As written, nothing in the server sets `req.user`, so every deal route answers 500 where server.js:497 reads `req.user.role` (`DealPolicy.EveryDealRequestFails`). The deal routes' results in the model assume some authentication layer supplies the caller, which is a parameter of the deal routes.
- Concurrency is left out: two requests racing on one email or one deal are not modelled.
- A malformed id in a URL makes Mongoose throw a CastError (500). The model's ids are numbers, so this is not modelled.
- Timestamps (`dateCreated`, `lastModifiedAt`, `timestamps: true`), the remaining deal fields and the ABBASS fields are not used by any rule here, so they are left out.
- Case mapping is ASCII only; ECMAScript's full Unicode `toLowerCase`/`toUpperCase` is left out.
- CreateDeal.NumberOrZero: reads only unsigned decimal integers; signs, fractions, exponents and hexadecimal that `Number` accepts read as 0 here, because floating point is not modelled.
- Identity.ApplyIdentityUpdate: assumes a Mongoose that strips undefined keys from updates (6 or later), so a field absent from the body is not written. Mongoose 5 without `omitUndefined` would set those fields to null. The same assumption covers the update objects of PUT /api/users/:id (server.js:334, `Identity.IdentityStore.UpdateUser`), PUT /api/super-admin/:id (server.js:116-124, `Identity.IdentityStore.UpdateSuperAdmin`) and PUT /api/deals/:id (server.js:661-665, `DealModel.ApplyUpdate`, `DealPolicy.DealStore.Update`).
- A stored unit or office of an unexpected shape is left out. Such a value is neither text nor an object with a name.
- The list endpoints GET /api/users, /api/users/:id, /api/admin, /api/all-users, /api/business-units and /api/offices only read collections, so they are left out.
- Contacts CRUD and the spreadsheet import/export are left out: their server handlers are not part of this model, and spreadsheet parsing is a foreign library.
- The other pages are left out: Login, ForgetPassword, Users, BusinessSetting, CreateContact and AdminDashboard are forms over the modelled routes. This includes the login page's hard-coded 'superadmin' shortcut.
- A filter key that looks like an array index is left out. `Object.entries` lists such keys first, and the searchable field names are never of that shape.
- A contact field holding a number is left out. It is taken as its text; a numeric 0 would be falsy.
- The kanban fetch URL is left out. For managers it passes `businessUnits`, which the server ignores for managers.
- Kanban.OnDragEnd: `fetch` throwing is folded into `serverOk == false`, since both end in the same error message.
- Kanban.OnDragEnd: requires the source index to lie inside the source column, which the drag library guarantees. With a larger index the source's `splice` removes nothing and inserts a bare `{stage}` object; that case is not modelled.
- Kanban.MoveInPlace: requires an in-range source index for the same reason.
- Routes.PageAt: percent-decoding of the path is not modelled; paths are compared as given, up to ASCII case and trailing slashes.

## Findings

| source | as written | input that shows it | evidently intended | confidence | as-written member | corrected member |
|---|---|---|---|---|---|---|
| backend/server.js:497 | `checkDealPermissions` reads `req.user.role`, but no middleware or handler sets `req.user` | any request to GET, POST, PUT or DELETE /api/deals | an authentication layer attaches the caller before the deal routes | not executed; high that the routes fail as written | DealPolicy.EveryDealRequestFails | DealPolicy.DealPermissions |
