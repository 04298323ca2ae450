# Stray-animal adoption backend: a Dafny model of the listing and adoption workflow

This project models the core of a small web backend for a stray-animal
adoption platform. Registrars and admins register animals and publish or
unpublish their listings. Users apply to adopt an animal, and an admin
approves or rejects each application. Approval forces the animal to
`adopted`. Rejection publishes the animal again only when no other
application is still waiting and the animal is not a draft.

The model has these parts:

- `Tables` (`tables.dfy`): the status enumerations of the schema's CHECK
  constraints (roles, animal statuses, application statuses) and one
  datatype per row of the `animals`, `health_records` and
  `adoption_applications` tables.
- `Access` (`access.dfy`): the route guards `requireLogin` and
  `requireRole` as pure functions from the session user (and the allowed
  roles) to a `Decision`: proceed, or answer 401 or 403.
- `Queries` (`queries.dfy`): the pure parts of the handlers. These are:
  - how body fields are coerced (`x || default`, `flag ? 1 : 0`);
  - the single-row status update;
  - the role-filtered animal listing;
  - the choice of the current health record;
  - the count of submitted applications;
  - the rollback rule of reject.
- `Server` (`server.dfy`): class `Store`. Its fields are the three tables,
  as maps and a sequence, plus the AUTOINCREMENT counters. Each HTTP
  handler is one method. The session user and the clock reading `now` are
  parameters. Each state-changing method's `ensures` gives the exact new
  state in terms of the old one, for every branch: guard denial,
  validation error, not found, success.
- `Scenarios` (`scenarios.dfy`): client methods that walk through the
  workflow using only the handlers' contracts.

Timestamps are the ISO-8601 strings produced by `toISOString()`. They have
a fixed width, so comparing them as strings is comparing them in time.
The model therefore represents them as natural numbers (`Tables.Timestamp`).

Three facts about the code shape the model:

- An adopted animal can have several approved applications. Approve does
  not look at the animal's other applications, so two approvals for the
  same animal both stand (`Scenarios.DoubleApproval`). Publish and
  unpublish also change an adopted animal without touching its
  applications.
- Apply does not look the animal up. Any non-zero animal id is accepted,
  and no foreign-key check is enabled that would refuse a missing one.
- The health insert has its own inline guard (server.js:624). It answers
  403, not 401, when nobody is logged in
  (`Server.HealthGuardVersusRequireRole`).

## Model

| member | source | states |
|---|---|---|
| `Access.RequireLogin` | auth.js:4-7 | proceeds exactly when a session user is present; otherwise denies with 401 |
| `Access.RequireRole` | auth.js:9-17 | 401 when there is no session user, 403 when the user's role is not listed, and proceeds exactly when a user is present and its role is listed |
| `Access.AnonymousNeverForbidden` | auth.js:11 | without a session user, requireRole never answers 403 for any role list, and answers as requireLogin does |
| `Access.RoleImpliesLogin` | auth.js:4-17 | passing requireRole implies passing requireLogin; a requireLogin denial is repeated by requireRole for every role list |
| `Access.RequireRoleMonotone` | auth.js:12 | allowing more roles never turns a pass into a denial |
| `Access.RequireRoleOrderIrrelevant` | auth.js:12-14 | two role lists with the same members guard alike, so `requireRole("registrar","admin")` and `requireRole("admin","registrar")` agree |
| `Queries.OrElse` | server.js:178-184 | a present, non-empty field is kept, otherwise the default is used; a non-empty default never yields an empty value |
| `Queries.Flag` | server.js:638-640 | the stored flag is 1 exactly when the body value is truthy, and 0 exactly when it is falsy |
| `Queries.UpdateStatus` | server.js:289 | `UPDATE animals SET status=? WHERE id=?` keeps the key set; the matched row changes only its status; every other row is unchanged |
| `Queries.Listing` | server.js:305-316 | the listing holds only stored rows the viewer may see, holds every such row, and is strictly descending by id |
| `Queries.SeesAll` | server.js:308 | a session sees the unfiltered listing exactly when `requireRole("admin","registrar")` would let it through |
| `Queries.PublishedOnly` | server.js:310 | the filter keeps only rows of the input whose status is published |
| `Queries.PublishedOnlyKeepsPublished` | server.js:310 | the filter keeps every published row of the input |
| `Queries.PublishedOnlyAppend` | server.js:310 | the filter keeps order: filtering a concatenation concatenates the filtered parts |
| `Queries.PublicListingFiltersStaffListing` | server.js:307-310 | the anonymous or `user` listing equals the admin/registrar listing with all non-published rows removed, order kept |
| `Queries.StaffListingIsComplete` | server.js:308-309 | an admin or registrar session lists exactly the stored animals |
| `Queries.Latest` | server.js:240-247 | no record is chosen exactly when the animal has none; otherwise the chosen one is a record of that animal with no later `updated_at` among its records |
| `Queries.CurrentHealth` | server.js:248-258 | without records the health part is `{0, 0, 0, "暂无健康记录", null}`; otherwise it is the view of a record of the animal with the latest `updated_at` |
| `Queries.NewestRecordIsCurrent` | server.js:632-644 | an appended record strictly more recent than the animal's other records becomes its current health state, whatever the order among equal times |
| `Queries.OtherRecordKeepsCurrent` | server.js:244 | a record for one animal leaves every other animal's current health state unchanged |
| `Queries.SubmittedCount` | server.js:477-481 | the count of submitted applications for an animal is zero exactly when none of that animal's applications is still submitted |
| `Queries.SubmittedCountPositive` | server.js:477-487 | the submitted count for an animal is positive exactly when some application of that animal is still submitted |
| `Queries.RejectRollback` | server.js:486-508 | the animal is rolled back exactly when no submitted application remains and the animal exists and is not a draft; the outcome is "others pending" exactly when submitted applications remain; otherwise a missing animal yields the soft "not rolled back" outcome and a draft yields "kept as draft" |
| `Server.HealthGuard` | server.js:624-626 | the health insert proceeds exactly for a registrar or admin user, and otherwise answers 403 (no 401 case) |
| `Server.HealthGuardVersusRequireRole` | server.js:624 | the inline guard equals `requireRole("registrar","admin")` for a logged-in user, but answers 403 where requireRole answers 401 when nobody is logged in |
| `Server.Store.CreateAnimal` | server.js:151-194 | guard denies and changes nothing. Missing name or species gives 400 and no row. Otherwise exactly one new row in `draft`: the next id, foster_type defaulting to `family`, sex/age/description/location defaulting to `""`, created_by from the session, created_at = now |
| `Server.Store.Publish` | server.js:286-293 | after the registrar/admin guard, the animal with that id becomes published whatever its status, and the answer is 200 even for a missing animal; nothing else changes |
| `Server.Store.Unpublish` | server.js:295-302 | after the admin guard, the animal with that id becomes draft whatever its status; nothing else changes |
| `Server.Store.AdminPublish` | server.js:358-366 | after the admin guard: 404 and no change when no row matched; otherwise the animal becomes published |
| `Server.Store.Republish` | server.js:373-389 | 404 for a missing animal; 400 and no change for an adopted one; otherwise the animal becomes published |
| `Server.Store.ListAnimals` | server.js:304-316 | returns every animal for admin/registrar sessions and only published ones otherwise, descending by id |
| `Server.Store.AnimalDetail` | server.js:225-263 | 404 for a missing animal; otherwise the selected columns of the animal with the current health state |
| `Server.Store.AddHealthRecord` | server.js:622-653 | 403 and no change unless a registrar or admin is logged in. Otherwise appends exactly one record with flags coerced to 0/1, notes defaulting to `""`, updated_by from the session, updated_at = now. The animal id is not checked |
| `Server.Store.Apply` | server.js:391-406 | after the `user` guard: a falsy animal_id or contact gives 400 and no row. Otherwise exactly one `submitted` application with reason defaulting to `""` and user_id from the session. The animal is neither checked nor changed |
| `Server.Store.Approve` | server.js:423-447 | 404 and no change for a missing application. Otherwise that application becomes approved with reviewer and time set. Its animal becomes adopted whatever the application's prior status. All other applications are unchanged |
| `Server.Store.Reject` | server.js:449-515 | 404 for a missing application. Otherwise it becomes rejected, with 200 in every remaining branch. The animal is unchanged while a submitted application remains, unchanged when missing or draft, and otherwise published |
| `Scenarios.AdoptionScenario` | server.js:151-447 | create, publish, apply, approve leaves the application approved and the animal adopted |
| `Scenarios.RejectAfterAdoption` | server.js:423-515 | rejecting a second application after an approval, with none submitted left, republishes the adopted animal |
| `Scenarios.RejectWithAnotherPending` | server.js:476-488 | rejecting one of two submitted applications leaves the animal published |
| `Scenarios.RejectKeepsDraft` | server.js:490-500 | an unpublished animal stays draft when its last submitted application is rejected |
| `Scenarios.RepublishAdopted` | server.js:380-382 | republishing an adopted animal answers 400 and keeps it adopted |
| `Scenarios.DoubleApproval` | server.js:423-447 | two applications for one animal can both end up approved |
| `Scenarios.HealthDetail` | server.js:226-263 | the detail view shows the zeroed default before any record and the newest record after one is added |

## Left out

- Database failures (every status-500 branch) are not modelled. Each handler runs as one step that cannot fail, so reject's soft "rollback failed" answer (server.js:492-506) appears only in its "animal missing" form.
- Concurrency is not modelled. Approve and reject run several statements without a transaction, and requests can interleave between them. Each handler is modelled as one sequential method.
- Reject's answer messages are modelled by the `RejectOutcome` case they stand for, not by their text.
- `Number(req.params.id)` for a non-numeric or fractional path segment is not modelled. Ids are integers. An id with no row behaves as in the source: not found, or a no-op update.
- The health flags are modelled as absent, null, booleans, integers and strings. JSON arrays and objects (always truthy) and non-integer numbers are not modelled.
- String body fields are optional strings. Non-string JSON values in them are not modelled. A truthy non-zero `animal_id` is stored as given.
- Express routing, body parsing, sessions, static files and server start-up are plumbing and are not modelled. So are table creation and migration; only the CHECK enumerations are used.
- Login, logout and `me` (server.js:126-148), password hashing and user seeding use bcrypt and asynchronous I/O and are not modelled.
- These read-only routes are not part of this model: `GET /api/animals/:id/health`, `GET /api/admin/adoptions`, `GET /api/adoptions/my`.
- `GET /api/admin/animals/full` depends on SQLite's unspecified bare-column `GROUP BY` choice and is not modelled.
- The revenue ledger (catalog arrays, payment, orders) and the standalone `Code/mmhz/server.js` demo are not modelled. They are I/O and paired inserts of REAL amounts.
- The clock is a parameter. No handler relies on it increasing. `Queries.NewestRecordIsCurrent` takes "strictly more recent" as a hypothesis.
- Queries.Latest: among records with equal `updated_at` the model picks the later inserted. SQLite's order for such ties is unspecified, so the contract promises only that no later record exists.
