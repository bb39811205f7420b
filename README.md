# Aid-distribution tracker: fixture store, queries and dashboard derivations

This project models the only computing part of a front-end prototype for a
humanitarian-aid distribution tracker. All data in the prototype lives in
constant in-memory arrays (organizations, families, beneficiaries, aid
packages, delivery tasks, alerts). A few query helpers and a statistics
function read those arrays, and three view components derive their lists and
counters from them:

- the partner-organization dashboard,
- the family/aid-giver dashboard,
- the beneficiary details modal.

The model is written in Dafny as pure functions. The fixture arrays are one
value, `MockData.Store`, passed to every query. No function can change it,
and a function applied twice to the same store gives the same result, so the
source's "no query mutates the store, repeated calls agree" holds by
construction.

Modules:

- `Wrappers`: `Option`, for JavaScript's `undefined`.
- `Sequences`: `Filter` and `Find` (`Array.prototype.filter`/`find`) and their
  reference meanings. `SelectedBy(r, s, p)` says that `r` is exactly the
  elements of `s` where `p` holds, in the order of `s`, witnessed by an
  increasing sequence of positions. `CountWhere(s, p)` is the number of
  positions where `p` holds. `FirstMatchAt` describes the first match.
  `SelectedByUnique` proves that `SelectedBy` determines its sequence. So
  every query stated with it is specified completely: the right elements, all
  of them, in store order.
- `Text`: `Lower` (`toLowerCase`) and `Contains` (`includes`), with the
  occurrence-at-a-position meaning of `Contains`.
- `MockData`: the entity records, the store, the queries and `calculateStats`.
- `Scoping`: what the views share. This covers finding a task's package by
  id, keeping tasks whose package belongs to an owner, and the search box.
- `OrganizationsDashboard`, `FamiliesDashboard`, `BeneficiaryDetailsModal`:
  the derivations at the top of each component.

Two facts of the code shape the model:

- A beneficiary carries two independent optional owner fields
  (`organizationId`, `familyId`), not a single owner variant.
- The modal scopes a beneficiary's tasks through the task's package. It never
  reads the task's own `beneficiaryId`.

## Model

| member | source | states |
|---|---|---|
| `Sequences.FilterSelects` | src/data/mockData.ts:733-755 | every filter in the store keeps exactly the elements that pass its test, in store order, at increasing positions |
| `Sequences.SelectedByUnique` | src/data/mockData.ts:733-755 | only one sequence is "exactly the passing elements in store order": the filter's result |
| `Sequences.FindFirst` | src/data/mockData.ts:725-731 | `find` returns the element at the first position that passes its test |
| `Sequences.FilterCount` | src/data/mockData.ts:761-762 | the `.length` of a filter is the number of positions that pass its test |
| `Sequences.FilterFilter` | src/data/mockData.ts:749-755 | filtering by one test and then another equals filtering once by both |
| `Text.ContainsIffOccurs` | src/components/OrganizationsDashboard.tsx:135-136 | `includes` holds iff the part occurs in the text at some position |
| `Text.Lower` | src/components/OrganizationsDashboard.tsx:135 | lower-casing keeps the length, turns each ASCII capital A–Z into its small letter a–z, and keeps every other character |
| `Text.LowerIdempotent` | src/components/OrganizationsDashboard.tsx:135 | lower-casing an already lower-cased string changes nothing |
| `Text.ContainsLower` | src/components/OrganizationsDashboard.tsx:135 | if the text contains the part, the lower-cased text contains the lower-cased part |
| `MockData.OrganizationById` | src/data/mockData.ts:725-727 | nothing iff no organization has the id; otherwise an organization with that id, namely the first one |
| `MockData.FamilyById` | src/data/mockData.ts:729-731 | nothing iff no family has the id; otherwise the first family with that id |
| `MockData.BeneficiariesByOrganization` | src/data/mockData.ts:733-735 | exactly the beneficiaries whose `organizationId` is present and equal to the argument, in store order; one without the field is never returned |
| `MockData.BeneficiariesByFamily` | src/data/mockData.ts:737-739 | exactly the beneficiaries whose `familyId` equals the argument, in store order |
| `MockData.PackagesByBeneficiary` | src/data/mockData.ts:741-743 | exactly the packages whose `beneficiaryId` equals the argument, in store order |
| `MockData.TasksByStatus` | src/data/mockData.ts:745-747 | exactly the tasks in the given state, in store order |
| `MockData.UnreadAlerts` | src/data/mockData.ts:749-751 | exactly the alerts not yet read, in store order |
| `MockData.CriticalAlerts` | src/data/mockData.ts:753-755 | exactly the unread alerts of critical priority, in store order |
| `MockData.CriticalWithinUnread` | src/data/mockData.ts:749-755 | the critical list is the unread list narrowed to critical priority, so it is an order-preserving subsequence of it and no longer |
| `MockData.RoundedPercent` | src/data/mockData.ts:771 | `Math.round(part / whole * 100)`: the integer nearest 100·part/whole with halves rounded up, and between 0 and 100 when part ≤ whole |
| `MockData.ActiveTasksSplit` | src/data/mockData.ts:762 | the active-task count is the sum of the pending, assigned and in-progress counts |
| `MockData.CalculateStats` | src/data/mockData.ts:758-773 | totals are the array lengths; delivered and active counts are the numbers of matching records; delivered ≤ total; active = the sum over the three active states and ≤ the number of tasks; critical = the length of the critical list and ≤ the unread count; rate 0 without packages, else the rounded percentage; rate ≤ 100 |
| `Scoping.PackageOfTask` | src/components/OrganizationsDashboard.tsx:34 | nothing iff no package carries the task's package id; otherwise the first package that does |
| `Scoping.TasksThroughPackage` | src/components/OrganizationsDashboard.tsx:33-36 | a task is kept iff its package is found and satisfies the owner test; kept tasks stay in store order |
| `Scoping.SearchFilter` | src/components/OrganizationsDashboard.tsx:134-137 | exactly the members whose lower-cased name contains the lower-cased term or whose national id contains the raw term, in order; a subsequence of the input |
| `Scoping.EmptySearchKeepsAll` | src/components/OrganizationsDashboard.tsx:134-137 | an empty search term keeps every member |
| `Scoping.NameSearchIsCaseBlind` | src/components/OrganizationsDashboard.tsx:135 | a name holding a term in one ASCII case is found by the same term typed in any other case |
| `Scoping.NameSearchLowersTerm` | src/components/OrganizationsDashboard.tsx:135 | the name test gives the same answer for a term and its lower-cased form |
| `Scoping.NameIsCaseInsensitive` | src/components/OrganizationsDashboard.tsx:135 | the name "AB12" is found by the term "ab12", unlike the national id |
| `Scoping.NationalIdIsCaseSensitive` | src/components/OrganizationsDashboard.tsx:136 | the national-id test is not case-folded: the id "AB12" does not match the term "ab12" |
| `OrganizationsDashboard.OrgBeneficiaries` | src/components/OrganizationsDashboard.tsx:30-31 | needs a first organization; exactly its beneficiaries, in store order |
| `OrganizationsDashboard.OrgPackages` | src/components/OrganizationsDashboard.tsx:32 | exactly the packages whose `organizationId` is the first organization's id, in store order |
| `OrganizationsDashboard.OrgTasks` | src/components/OrganizationsDashboard.tsx:33-36 | a task is shown iff the first package with its package id exists and belongs to the first organization; dangling ids are excluded; store order kept |
| `OrganizationsDashboard.FilteredBeneficiaries` | src/components/OrganizationsDashboard.tsx:134-137 | exactly the organization's beneficiaries that match the search, at their positions and in order (repeats included); a subsequence holding exactly the matching ones |
| `OrganizationsDashboard.EmptySearchShowsAll` | src/components/OrganizationsDashboard.tsx:134-137 | an empty search shows every beneficiary of the organization |
| `OrganizationsDashboard.DeliveredTile` | src/components/OrganizationsDashboard.tsx:247 | the number of the organization's packages that are delivered, at most the number of its packages |
| `OrganizationsDashboard.ActiveTasksTile` | src/components/OrganizationsDashboard.tsx:263 | the number of the organization's tasks that are pending, assigned or in progress, at most the number of its tasks |
| `OrganizationsDashboard.DeliveredTileWithinStats` | src/components/OrganizationsDashboard.tsx:247 | the organization's delivered tile never exceeds the store-wide delivered count of the statistics |
| `FamiliesDashboard.FamilyMembers` | src/components/FamiliesDashboard.tsx:29-30 | needs a first family; exactly its members, in store order |
| `FamiliesDashboard.FamilyPackages` | src/components/FamiliesDashboard.tsx:31 | exactly the packages whose `familyId` is the first family's id, in store order |
| `FamiliesDashboard.FamilyTasks` | src/components/FamiliesDashboard.tsx:32-35 | a task is shown iff the first package with its package id exists and belongs to the first family; store order kept |
| `FamiliesDashboard.FilteredMembers` | src/components/FamiliesDashboard.tsx:108-111 | exactly the family's members that match the search, at their positions and in order (repeats included); a subsequence holding exactly the matching ones |
| `FamiliesDashboard.EmptySearchShowsAllMembers` | src/components/FamiliesDashboard.tsx:108-111 | an empty search shows every member |
| `FamiliesDashboard.DistributedTile` | src/components/FamiliesDashboard.tsx:251 | the floor of packagesDistributed · completionRate / 100 |
| `FamiliesDashboard.PendingTile` | src/components/FamiliesDashboard.tsx:267 | the pending and distributed tiles always add up to packagesDistributed |
| `FamiliesDashboard.TilesWithinDistributed` | src/components/FamiliesDashboard.tsx:251-267 | with a non-negative packagesDistributed and a completion rate in 0..100, both tiles lie between 0 and packagesDistributed (a negative count would make the pending tile negative) |
| `BeneficiaryDetailsModal.BeneficiaryPackages` | src/components/BeneficiaryDetailsModal.tsx:14 | the same list getPackagesByBeneficiary gives for the beneficiary's id: exactly the packages addressed to it |
| `BeneficiaryDetailsModal.BeneficiaryTasks` | src/components/BeneficiaryDetailsModal.tsx:15-18 | a task is shown iff the first package with its package id exists and is addressed to the beneficiary; store order kept |
| `BeneficiaryDetailsModal.TaskOwnBeneficiaryIgnored` | src/components/BeneficiaryDetailsModal.tsx:15-18 | rewriting a task's own beneficiaryId never changes whether it is shown |
| `BeneficiaryDetailsModal.StatusColor` | src/components/BeneficiaryDetailsModal.tsx:223-230 | verified, pending and rejected each get their own colour, and every other string, and only those, gets gray |
| `BeneficiaryDetailsModal.EligibilityLabel` | src/components/BeneficiaryDetailsModal.tsx:299-300 | "مؤهل" iff eligible, "قيد المراجعة" iff under review, "مرفوض" iff rejected or suspended |
| `BeneficiaryDetailsModal.SuccessfulDeliveries` | src/components/BeneficiaryDetailsModal.tsx:754-758 | the number of deliveries whose status is "delivered", at most the total number of deliveries |
| `BeneficiaryDetailsModal.SummaryPartition` | src/components/BeneficiaryDetailsModal.tsx:1048-1066 | the four tile counts plus the review entries add up to the log length; approvals are verifies plus approves |
| `BeneficiaryDetailsModal.Summarise` | src/components/BeneficiaryDetailsModal.tsx:1048-1066 | each tile counts its kinds of log entries; the tiles sum to the log length minus the review entries, so at most the log length |

## Left out

- All rendering, styling, icons, tab switching and modal open/close state. The `useState` event handlers of both dashboards (`handleAddNew`, `handleEdit`, `handleView`) are left out too. They only steer the UI.
- The landing page, the top-level page switch with its error boundary, and the admin dashboard. The admin dashboard only displays `calculateStats`, `getCriticalAlerts` and `getUnreadAlerts`, which are modelled here.
- Browser side effects: report export through `Blob`/`URL`/`document`, bulk upload with a file input and `setTimeout`, and `prompt`/`alert`/`confirm`/`tel:` handlers.
- Date formatting (`toLocaleDateString('ar-SA')`) and coordinate display (`toFixed`).
- The literal fixture values. The store is a parameter, so every property holds for any store, the shipped fixtures included.
- The Permission, Role, SystemUser, User, Courier, Request and Document records. No modelled logic reads them.
- The modal's local request and document arrays. They are only displayed: the requests feed the request count badge (`beneficiaryRequests.length`) and the documents feed the status colour of each row. The modal's delivery array is modelled through its success counter (`SuccessfulDeliveries`), and the activity log through its summary tiles (`Summarise`).
- Display-only fields of the modelled records. These include phones, e-mails, addresses, geolocation, dates, notes, image URLs, audit fields, the activity log's action, user and role, and a delivery's package name and courier. No query or counter reads them, so the activity-log and delivery records keep only their identifier and the field the counters read.
- The request-status colour mapping and the colour classes of the eligibility badge. Both are styling beside the modelled label and status-colour mappings.
- Package and task status transitions. The source declares the states as types only and has no transition function.
- MockData.RoundedPercent: computes `Math.round` on the exact rational 100·delivered/total. The source divides in double precision first, which is not modelled.
- FamiliesDashboard.DistributedTile: models integer `packagesDistributed` and `completionRate`. JavaScript numbers may be fractional or beyond 2^53, and such values are not modelled.
- Text.Lower: folds only the ASCII capitals A–Z. Unicode case mapping of other scripts (e.g. Greek, Cyrillic, accented Latin) is not modelled. Arabic, the fixtures' script, has no case.
- The first-organization and first-family derivations require a non-empty array. In the source, reading `.id` of the missing first element throws, and that failure is not modelled.
