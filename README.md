# invenio-records-permissions: the permission-composition core in Dafny

This project models how invenio-records-permissions decides who may act on a
record, and how it restricts what a search shows. It has three layers.

- **Generators** (`generators.dfy`). Each rule class answers three questions
  for one action:
  - its granting Needs (`needs`);
  - its denying Needs (`excludes`);
  - its search filter (`query_filter`).

  The rule classes are the base `Generator`, `RecordIp`, `RecordIpRange`,
  `RecordOwners`, `RecordGroups`, `AnyUser`, `SuperUser`, `Disable`,
  `Admin`, `AnyUserIfPublic` and `AllowedByAccessLevel`.
- **Policies** (`policy_base.dfy`). A policy class maps each action to a list
  of generators, and an undefined action falls back to `[Disable()]`.
  - One policy instance, a `class` with the growing `explicit_needs` and
    `explicit_excludes` sets, unions the Needs and the exclusions of its
    generators.
  - The instance lists the filters that are not falsy, in generator order.
- **The records search filter** (`api.py`'s `rdm_records_filter`, in
  `api.dfy`). It ORs the read policy's filters together in a loop, and
  matches everything when there are none.

`deposits.dfy` holds the deposit policy table and what each of its actions
decides.

Supporting modules:
- `principal.dfy`:
  - flask-principal Needs, as a `(method, value)` pair;
  - the identity;
  - the matching rule of invenio-access, which grants when some provided
    Need is needed (or the identity is a super user) and no provided Need
    is excluded.
- `records.dfy`: the record fields that the generators read.
- `queries.dfy`: the Elasticsearch DSL queries, as an expression tree
  with a `Matches` meaning over indexed documents.
- `strings.dfy`: Python's string ordering.
- `wrappers.dfy`: `Option` and `Result`.

A `needs` call that raises becomes `Err(RecordMissing)`. This is the
`record.get` on `record=None` in the four record-reading generators. The
falsy `[]` filter becomes `None`.

## Model

| member | source | states |
|---|---|---|
| Principal.Allows | policies/base.py:73-118 | Definition with no contract of its own: the invenio-access matching of provided Needs against needs and excludes. Its meaning is proved by `Principal.AllowsIff` and `Principal.DenyTakesPriority`. |
| Principal.AllowsIff | policies/base.py:73-93 | Permission is granted iff a provided Need is among the needs, or the identity provides superuser access, and no provided Need is excluded. |
| Principal.DenyTakesPriority | policies/base.py:110-111 | A provided Need that is both needed and excluded denies. |
| Queries.OrAllMatches | generators.py:385-399 | A document matches the left-folded OR of a non-empty list iff it matches some element. |
| Queries.AndAllMatches | generators.py:178-180 | A document matches the left-folded AND of a non-empty list iff it matches every element. |
| Strings.LexLeReflexive | generators.py:143 | Python string `<=` is reflexive. |
| Strings.LexLeAntisymmetric | generators.py:143 | Two strings each `<=` the other are equal. |
| Strings.LexLeTransitive | generators.py:143 | String `<=` is transitive. |
| Generators.RecordIpRangeCheckPermission | generators.py:130-146 | The loop with its early return answers true iff there is a login address and some configured range contains it (inclusive string comparison). |
| Generators.InvertedRangeAdmitsNothing | generators.py:139-146 | A configured range whose start sorts after its end admits no address. |
| Generators.RangeOrderIrrelevant | generators.py:139-146 | Reordering the configured ranges does not change the answer. |
| Generators.PointRangesAgree | generators.py:85-146 | Over ranges `(s, s)`, the range check is exactly the `single_ips` membership check. |
| Generators.StringRangeAdmitsLongerAddress | generators.py:143 | Because the comparison is on strings, the range 10.0.0.1–10.0.0.2 admits 10.0.0.10. |
| Generators.NeedsFor | generators.py:161 | The comprehension yields one Need per value, in order, with that value. |
| Generators.AllowedIdentities | generators.py:356-363 | The chained identities are exactly the entries listed under one of the levels. |
| Generators.PersonNeeds | generators.py:365-370 | The comprehension yields a `UserNeed(id)` exactly for the entries of scheme "person" with a truthy id. |
| Generators.FirstId | generators.py:173-176 | The chosen id is the value of the first provided Need of method "id". It is absent iff no such Need exists. |
| Generators.LastRole | generators.py:206-209 | The dictionary ends up holding the value of the last provided "role" Need. It is absent iff there is none. |
| Generators.RecordOwnersQueryFilter | generators.py:163-180 | The dictionary-filling loop with its `break` builds the owners filter: the restriction match, ANDed with a match on the first id when there is one. |
| Generators.RecordGroupsQueryFilter | generators.py:197-221 | The loop over the provided Needs builds the groups filter. It is `~match_all` with no role, otherwise the restriction AND a match on the last role. |
| Generators.LevelTerms | generators.py:385-397 | One `term` query per access level, on field `internal.access_levels.<level>`, for the person id. |
| Generators.Generator.Needs | generators.py:38-370 | Definition with no contract of its own: the `needs` method of every generator class, with a missing record raising. Its meaning is proved by `NeedsFailsIff`, `BaseGeneratorEmpty`, `ConstantGenerators`, `RecordIpGrant`, `RecordIpRangeGrant`, `RecordOwnersGrant`, `RecordGroupsGrant`, `AnyUserIfPublicGrant`, `AccessLevelNeedsMeaning` and `AccessLevelNoNeeds`. |
| Generators.Generator.Excludes | generators.py:42-318 | Definition with no contract of its own: the `excludes` method of every generator class. Its meaning is proved by `OnlyDisableExcludes` and `AnyUserIfPublicGrant`. |
| Generators.Generator.QueryFilter | generators.py:46-399 | Definition with no contract of its own: the `query_filter` method of every generator class, with the falsy `[]` as `None`. Its meaning is proved by `QueryFilterIgnoresRecord`, `IpFilterAgreesWithNeeds`, `RecordOwnersFilterMeaning`, `RecordGroupsFilterMeaning`, `AnyUserIfPublicGrant` and `AccessLevelFilterMeaning`. The loops behind it are `RecordOwnersQueryFilter` and `RecordGroupsQueryFilter`. |
| Generators.BaseGeneratorEmpty | generators.py:38-48 | The base generator has no needs, no excludes and the falsy filter. |
| Generators.ConstantGenerators | generators.py:224-283 | `AnyUser` needs `any_user` with a match-all filter. `SuperUser` needs superuser access, with no filter. `Disable` needs nothing, excludes `any_user` and filters `~match_all`. `Admin` needs `ActionNeed("admin-access")`, with no filter. |
| Generators.OnlyDisableExcludes | generators.py:258-271 | A generator excludes something iff it is `Disable`, which excludes exactly `any_user`. |
| Generators.NeedsFailsIff | generators.py:57-195 | `needs` raises iff there is no record and the generator is one of the four that call `record.get`. |
| Generators.QueryFilterIgnoresRecord | generators.py:72-128 | No generator's search filter depends on the record argument. |
| Generators.RecordIpGrant | generators.py:57-70 | For an identity providing `any_user`, `RecordIp` grants iff the record lacks "ip_single", or the login address is a single IP, or the identity is a super user. |
| Generators.RecordIpRangeGrant | generators.py:105-116 | Likewise for `RecordIpRange`, with "ip_range" and the range check. |
| Generators.IpFilterAgreesWithNeeds | generators.py:57-128 | For both address generators, the filter shows a record's document iff the record's Needs contain `any_user`. |
| Generators.RecordOwnersGrant | generators.py:157-161 | An unrestricted record needs `any_user`. An "owners"-restricted record needs one `UserNeed` per owner, in order, and grants iff the identity is an owner or a super user. |
| Generators.RecordGroupsGrant | generators.py:191-195 | An unrestricted record needs `any_user`. A "groups"-restricted record needs one `RoleNeed` per group, in order, and grants iff the identity holds one of those roles or is a super user. |
| Generators.RecordOwnersFilterMeaning | generators.py:163-180 | The owners filter shows a document iff it is restricted to owners and, when the identity has an id, that id is among its owners. |
| Generators.RecordOwnersFilterHidesOpenRecord | generators.py:157-180 | A record without the "owners" restriction is open to everyone by its Needs, yet the owners filter hides its document. |
| Generators.RecordOwnersFilterShowsWithoutId | generators.py:157-180 | An identity without an "id" Need is granted an owner-restricted record only as a super user, yet the owners filter shows that record's document. |
| Generators.RecordGroupsFilterMeaning | generators.py:197-221 | The groups filter shows a document iff the identity has a role, the document is restricted to groups, and its groups hold the identity's last role. |
| Generators.RecordGroupsFilterKeepsLastRole | generators.py:205-221 | An identity whose Needs iterate as role "a" then role "b" is granted a record restricted to group "a", but the filter hides that record's document. |
| Generators.GroupsFilterDependsOnOrder | generators.py:200-209 | The same two role Needs, iterated in the other order, give a different groups filter. |
| Generators.DecisionIgnoresOrder | policies/base.py:88-118 | A generator's decision depends on the provided Needs only as a set, not on their order. |
| Generators.AnyUserIfPublicGrant | generators.py:309-323 | There is never an exclusion. An `any_user` identity is granted iff there is no record, or its metadata is not marked restricted, or the identity is a super user. The filter asks for `metadata_restricted == false`. |
| Generators.AccessLevelNeedsMeaning | generators.py:345-370 | The Needs are exactly the `UserNeed`s of the person entries listed under the action's access levels. |
| Generators.AccessLevelNoNeeds | generators.py:334-352 | There are no Needs without a record, or for an action without levels (create, delete, any action not in the table). |
| Generators.AccessLevelFilterMeaning | generators.py:372-399 | The filter is absent iff the identity has no id. It is the same for every configured action. It matches iff the document lists the person id under the "read" level `metadata_curator`. |
| PolicyBase.BaseTable | policies/base.py:53-57 | Definition with no contract of its own: the five actions the base class defines as `[]`. Its meaning is proved by `Api.InheritedReadShowsAll` and `PolicyBase.EmptyActionOnlySuperUsers`. |
| PolicyBase.GeneratorsFor | policies/base.py:65-71 | Definition with no contract of its own: `can_<action>`, falling back to `[Disable()]`. Its meaning is proved by `UndefinedActionDenied` and `EmptyActionOnlySuperUsers`. |
| PolicyBase.CollectNeeds | policies/base.py:88-91 | The union raises iff some generator raises. Otherwise a Need is in it iff some generator needs it. |
| PolicyBase.CollectExcludes | policies/base.py:113-116 | A Need is excluded iff some generator excludes it. |
| PolicyBase.CollectFilters | policies/base.py:127-131 | There are never more filters than generators. |
| PolicyBase.CollectFiltersMembers | policies/base.py:127-131 | A query is kept iff some generator's filter is that query: exactly the falsy ones are dropped. |
| PolicyBase.CollectFiltersAppend | policies/base.py:127-131 | The filters of concatenated generator lists are the concatenated filters, so order is kept. |
| PolicyBase.Evaluate | policies/base.py:73-118 | Definition with no contract of its own: the decision, the matching of the union of Needs against the union of exclusions. Its meaning is proved by `EvaluateMeaning`, and `FreshPolicyAgrees` ties it to a fresh instance. |
| PolicyBase.EvaluateMeaning | policies/base.py:73-118 | The policy's decision raises iff a generator's Needs raise. Otherwise it grants iff some generator needs a provided Need (or the identity is a super user) and no generator excludes a provided Need. |
| PolicyBase.UndefinedActionDenied | policies/base.py:65-71 | An action the class does not define has no Needs, excludes `any_user` and filters `[~match_all]`. Every identity providing `any_user` is denied, super users included. |
| PolicyBase.EmptyActionOnlySuperUsers | policies/base.py:45-57 | An action defined as `[]` has no Needs, no exclusions and no filters, and grants exactly the super users. |
| PolicyBase.SingleGeneratorPolicy | policies/base.py:88-131 | A one-generator policy decides and filters exactly as that generator does. |
| PolicyBase.PermissionPolicy.constructor | policies/base.py:59-63 | The action and keyword arguments are stored unchanged, and both explicit sets start empty. |
| PolicyBase.PermissionPolicy.Needs | policies/base.py:73-93 | When a generator raises, `explicit_needs` is unchanged. Otherwise it grows by the union of the generators' Needs and is returned. It never shrinks. |
| PolicyBase.PermissionPolicy.Excludes | policies/base.py:95-118 | `explicit_excludes` grows by the union of the generators' exclusions and is returned. |
| PolicyBase.PermissionPolicy.Generators | policies/base.py:65-71 | Definition with no contract of its own: the `generators` property, which is `GeneratorsFor` on the instance's action. |
| PolicyBase.PermissionPolicy.QueryFilters | policies/base.py:120-131 | Definition with no contract of its own: the `query_filters` property, which is `CollectFilters` over the instance's generators. Its meaning is proved by `CollectFiltersMembers` and `CollectFiltersAppend`. |
| PolicyBase.RepeatedReadsAgree | policies/base.py:88-118 | Reading `needs` twice gives the same answer, and so does reading `excludes` twice. |
| PolicyBase.FreshPolicyAgrees | policies/base.py:59-118 | A fresh instance returns exactly the policy's union of Needs and of exclusions, and its decision. |
| Api.SearchFilter | api.py:32-38 | Definition with no contract of its own: the OR of the filters, or `Q()` when there are none. Its meaning is proved by `SearchFilterMeaning`, and `CombineFilters` proves the loop computes it. |
| Api.SearchFilterMeaning | api.py:31-38 | The combined filter shows a document iff the list is empty or some filter shows it. |
| Api.CombineFilters | api.py:32-38 | The loop gives `Q()` for no filters, the filter itself for one, and otherwise the left fold `((f1 OR f2) OR …) OR fn` in list order. |
| Api.RdmRecordsFilter | api.py:18-38 | The records filter combines the filters of the read policy, built without a record. |
| Api.NoFiltersIff | policies/base.py:127-131 | A policy has no filters iff every generator's filter is falsy. |
| Api.ReadFilterIsUnion | api.py:31-38 | The search shows a document iff no read generator has a filter, or some read generator's filter shows it. |
| Api.MoreGeneratorsWiden | policies/base.py:120-131 | Appending generators to a read policy that already has a filter only widens what the search shows. |
| Api.InheritedReadShowsAll | policies/base.py:53-71 | A class table built on the base class's attributes always defines read. When the class does not set it, read has no generators and the search shows every document. |
| Api.FilterAsymmetry | api.py:31-38 | A table without a read action hides every document. A read action defined as `[]` shows every document. The first half arises only for a table not built on the base class's attributes, because every policy class inherits `can_read = []`. |
| Deposits.DepositTable | policies/deposits.py:24-31 | Definition with no contract of its own: the deposit class's attributes over the base class's. Its meaning is proved by the `Deposit*` lemmas below. |
| Deposits.DepositCreate | policies/deposits.py:28 | Create needs exactly `any_user`, grants `any_user` identities and super users, and filters `[match_all]`. |
| Deposits.DepositOwnersAccess | policies/deposits.py:27-29 | Listing and reading grant the owners and super users on an "owners"-restricted deposit, and every `any_user` identity otherwise. |
| Deposits.DepositWithoutRecord | policies/deposits.py:27-29 | Listing or reading without a record raises. |
| Deposits.DepositSearch | policies/deposits.py:29 | The deposit search filter is the owners filter. It shows exactly the owner-restricted documents owned by the identity's first id, or every owner-restricted document when the identity has no id. |
| Deposits.DepositSearchShowsOthersDeposits | policies/deposits.py:27-29 | An identity providing only `any_user` sees in the search a deposit owned by "u1", although reading it is denied. |
| Deposits.DepositUpdateDelete | policies/deposits.py:30-31 | Update and delete exclude nothing, filter nothing, and grant exactly the super users. |
| Deposits.DepositOtherActionsDisabled | policies/deposits.py:24-31 | Every other action filters `[~match_all]` and denies every identity that provides `any_user`. |

### Where the code and its documentation differ (the model follows the code)

- **`RecordOwners.query_filter`**
  - An identity without an "id" Need still gets the filter
    `match(applied_restrictions="owners")`. It is not the most restrictive
    filter, so such an identity sees every owner-restricted record in the
    search, though it may read none of them
    (`RecordOwnersFilterShowsWithoutId`, `DepositSearchShowsOthersDeposits`).
  - The filter hides records that are not restricted to owners, although
    the Needs of such records admit everyone (`RecordOwnersFilterHidesOpenRecord`).
- **`RecordGroups.query_filter`**
  - The comment says that at least one of the user's groups should match.
  - The loop overwrites a single dictionary key, so only the last role
    provided is tested (`RecordGroupsFilterKeepsLastRole`).
- **Iteration order of `g.identity.provides`**
  - flask-principal keeps the provided Needs in a set. The model keeps them
    as a sequence in iteration order.
  - "The first id" and "the last role" are whatever that iteration yields,
    so the owners, groups and access-level filters are not functions of the
    Needs as a set (`GroupsFilterDependsOnOrder`).
  - The decisions do depend only on the set (`DecisionIgnoresOrder`).
- **Deposit policy**
  - Its docstring promises update to owners and delete to admins.
  - Its table defines both as `[]`, which admits super users only.
- **Fail-open and fail-closed**
  - A read action defined as `[]` shows every document in the search.
  - The same empty list grants only super users when deciding.
  - An undefined action is closed both ways (`FilterAsymmetry`). Every
    policy class inherits `can_read = []`, so the records search never
    reaches that fallback (`InheritedReadShowsAll`).
- **IP ranges** compare addresses as strings (`StringRangeAdmitsLongerAddress`).

## Left out

- invenio-access's `_load_permissions`: the expansion of `ActionNeed`s into
  the users and roles that hold them is not modelled. The automatic
  superuser Need is modelled inside `Allows`.
- PolicyBase.PermissionPolicy.Needs: returns `explicit_needs` itself rather
  than invenio-access's reloaded `_permissions.needs`, because that
  expansion is foreign code, as is the case for `Excludes`.
- flask-principal's `allows` is abstracted as the set rule in
  `Principal.Allows`. Its evaluation order and identity loading are not
  modelled.
- Elasticsearch DSL `Q` objects are a small query tree. The library's
  simplifications (such as `match_all | q` collapsing) and query execution
  are not modelled. `Matches` states a query's meaning over a document.
- Flask globals (`current_user`, `g.identity`, `current_app.config`) become
  the explicit `Env` argument, which holds the login address, the provided
  Needs and the configured `single_ips` and `ip_ranges`. The values that
  setup.py supplies are not part of this model.
- Api.RdmRecordsFilter: the configuration lookup of the read permission
  factory, and its `KeyError` fallback, are not modelled. The model always
  uses the read policy built without a record. The fallback binds the
  factory function without calling it, so `.query_filters` would not exist
  on it.
- The permission factories (factories/records.py, factories/deposits.py)
  are not part of this model. They are constructor wrappers and database
  lookups.
- Need values are strings. `RecordOwners.query_filter` formats the id
  with an f-string, which the model takes as the identity.
- Record fields hold well-typed values. A non-boolean
  `metadata_restricted` or a non-string restriction entry is not modelled.
- The commented-out `RecordOwners` class, `ext.py`, `config.py`,
  `version.py`, `errors.py` and the package `__init__` files hold no
  decision logic and are not modelled.
