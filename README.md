# OpenNeuro: dataset authorization policy and analysis-job dialog state, in Dafny

This project models two parts of the OpenNeuro dataset portal and proves properties of them.

**Dataset authorization** (`permissions.dfy`, module `Permissions`). The GraphQL server decides whether a user may read, write or administer a dataset. Permission states are READ (`ro`, `rw`, `admin`), WRITE (`rw`, `admin`) and ADMIN (`admin`), and each state has its own denial message. The dataset store is a map from dataset id to its `public` flag. The permission store is a map from (dataset id, user id) to a permission record with a `level`. A user id is "identified" when it is JavaScript-truthy: present and not the empty string. A thrown `Error`, and the string `checkAdmin` rejects with, is an `Outcome.Fail` that carries the exact message. Every dataset check first fails with `Dataset <id> does not exist.` if the dataset is missing, before any permission logic. The read check lets any actor through on a public dataset. It also lets through an identified actor whose `userInfo` is an admin or is absent, because the read query then drops its `public` restriction. Otherwise it consults the actor's permission record. The write and admin checks fail anonymous actors, let identified site administrators through, and otherwise consult the record.

**Analysis-job dialog** (`jobs.dfy`, module `Jobs`). The dialog's state is a class `JobMenu` with the fields `loading`, `parameters`, `selectedApp`, `message` and `error`. `parameters` is an array of parameter records, and editing a parameter replaces its entry in place. The methods cover:
- selecting an app: the first app with the chosen id supplies the parameter declarations, and every value starts at its default;
- updating one parameter by id: a `bool` parameter toggles, any other takes the new value;
- restoring defaults;
- hiding the dialog;
- starting a job: the submitted object maps ids to values;
- the submission callback.

Pure functions give the body the dialog shows (spinner, message or form), whether the Start button is shown, and the result message.

`wrappers.dfy` holds the `Option` type used by both modules.

## Model

| member | source | states |
|---|---|---|
| `Permissions.CheckPermissionLevel` | packages/openneuro-server/src/graphql/permissions.js:44-50 | A missing record, or a value with no level, never satisfies a state. A present record satisfies it iff its level is in `state.allowed`. |
| `Permissions.LevelsFollowRank` | packages/openneuro-server/src/graphql/permissions.js:6-19 | The states follow the order ro < rw < admin. READ accepts every level ranked at least ro, WRITE at least rw, ADMIN only admin. Any other string satisfies none. |
| `Permissions.StatesNested` | packages/openneuro-server/src/graphql/permissions.js:6-19 | The allowed sets are nested: whatever satisfies ADMIN satisfies WRITE, and whatever satisfies WRITE satisfies READ. |
| `Permissions.DatasetReadQuery` | packages/openneuro-server/src/graphql/permissions.js:28-34 | The query keeps the id. It is public-only iff the user id is falsy, or `userInfo` is present with `admin` false. So it is unrestricted exactly for an identified user who is an admin or has no `userInfo`. |
| `Permissions.ReadQueryFinds` | packages/openneuro-server/src/graphql/permissions.js:61-66 | The visibility-scoped query finds the dataset iff it is stored and either public or the actor sees every dataset. |
| `Permissions.ResolvedLookupIsHasLevel` | packages/openneuro-server/src/graphql/permissions.js:69-70 | Testing the awaited permission lookup against a state holds iff the user has a stored record on the dataset whose level the state allows. |
| `Permissions.CheckDatasetExists` | packages/openneuro-server/src/graphql/permissions.js:52-55 | Succeeds iff the dataset is stored. Otherwise fails with `Dataset <id> does not exist.` |
| `Permissions.CheckDatasetRead` | packages/openneuro-server/src/graphql/permissions.js:57-76 | A missing dataset fails with the not-found message. On an existing dataset, read succeeds iff the dataset is public, the actor sees all datasets, or the actor's record level is in READ. Any other failure carries READ's message. |
| `Permissions.CheckDatasetWrite` | packages/openneuro-server/src/graphql/permissions.js:86-107 | The write check with the lookup awaited. A missing dataset fails with the not-found message. An anonymous actor fails with the state's message, even on a public dataset. An identified site admin succeeds. Any other actor succeeds iff its record's level is in the state's allowed set, and otherwise fails with the state's message. |
| `Permissions.CheckDatasetWriteAsWritten` | packages/openneuro-server/src/graphql/permissions.js:101-106 | The write check as the server has it, with the lookup not awaited. A missing dataset fails with the not-found message. On an existing dataset it succeeds iff the actor is an identified site admin, and every failure carries the state's message. |
| `Permissions.CheckDatasetAdmin` | packages/openneuro-server/src/graphql/permissions.js:109-110 | The write check with the ADMIN state. On an existing dataset it succeeds iff the actor is identified and is a site admin or holds `admin`. Failures carry ADMIN's message. |
| `Permissions.CheckAdmin` | packages/openneuro-server/src/graphql/permissions.js:112-115 | Succeeds iff the user id is truthy and `userInfo.admin` holds. Otherwise rejects with ADMIN's message. |
| `Permissions.MissingDatasetFailsFirst` | packages/openneuro-server/src/graphql/permissions.js:52-55 | For a missing dataset, read, write and admin all fail with the same not-found message, whatever the actor, site admins included. |
| `Permissions.PublicIsReadable` | packages/openneuro-server/src/graphql/permissions.js:61-66 | Every actor, anonymous included, can read a public dataset without any permission record. |
| `Permissions.SiteAdminPassesEverything` | packages/openneuro-server/src/graphql/permissions.js:28-115 | An identified site admin passes read, write, admin and the site-wide check on any existing dataset, whatever its visibility and records. |
| `Permissions.AnonymousActor` | packages/openneuro-server/src/graphql/permissions.js:57-96 | An actor without a user id reads an existing dataset iff it is public. The read half rests on the model's choice that a permission lookup without a user id finds no record, although the server still queries with `userId: undefined`. Write and admin always fail with those states' messages. |
| `Permissions.AdminImpliesWrite` | packages/openneuro-server/src/graphql/permissions.js:109-110 | Passing the admin check implies passing the write check. |
| `Permissions.WriteImpliesRead` | packages/openneuro-server/src/graphql/permissions.js:86-107 | Passing the write check implies passing the read check. |
| `Permissions.AsWrittenDeniesNonAdmins` | packages/openneuro-server/src/graphql/permissions.js:101-106 | As written, an identified non-admin is denied write and admin access with the state's message, whatever grant they hold. |
| `Permissions.AsWrittenDiffersFromIntended` | packages/openneuro-server/src/graphql/permissions.js:101-106 | The as-written and intended write checks differ exactly for identified non-admins whose record satisfies the state. |
| `Permissions.AsWrittenCounterexample` | packages/openneuro-server/src/graphql/permissions.js:101 | A user with `rw` on a private dataset passes the intended write check but fails the as-written one. |
| `Permissions.Scenarios` | packages/openneuro-server/src/graphql/permissions.js:57-110 | Six worked cases: an `ro` holder reads but cannot modify, a missing dataset, a public dataset read but not administered, and a site admin administering a private dataset. |
| `Jobs.NegateTwice` | src/scripts/dataset/dataset.tools.jobs.jsx:170 | Negating twice turns any value into the boolean of its truthiness, so a boolean value toggled twice comes back unchanged. |
| `Jobs.UpdateOne` | src/scripts/dataset/dataset.tools.jobs.jsx:168-174 | Editing one entry keeps its declaration. An entry with another id is unchanged. A matching `bool` entry gets the negation of its value, and any other matching entry gets the new value. |
| `Jobs.Updated` | src/scripts/dataset/dataset.tools.jobs.jsx:164-177 | Updating by id keeps the list's length. |
| `Jobs.UpdatedAt` | src/scripts/dataset/dataset.tools.jobs.jsx:167-175 | Entry k of the updated list is entry k of the old list with the one-entry edit applied. |
| `Jobs.UpdateChangesOnlyMatches` | src/scripts/dataset/dataset.tools.jobs.jsx:164-177 | Updating by id keeps length, order and every id, type, label, description and default. A matching `bool` entry is negated and ignores the new value. Any other matching entry takes the new value. Every non-matching entry is unchanged. |
| `Jobs.UpdateTwiceTogglesBack` | src/scripts/dataset/dataset.tools.jobs.jsx:169-170 | Updating a boolean entry twice by its id gives the entry back. |
| `Jobs.Restored` | src/scripts/dataset/dataset.tools.jobs.jsx:182-188 | Restoring defaults keeps the list's length. |
| `Jobs.RestoredAt` | src/scripts/dataset/dataset.tools.jobs.jsx:184-186 | Entry k after restoring is entry k with its value set to its default. |
| `Jobs.RestoreSetsDefaults` | src/scripts/dataset/dataset.tools.jobs.jsx:182-188 | After restoring, every declaration is unchanged and every value equals its default. |
| `Jobs.RestoreIdempotent` | src/scripts/dataset/dataset.tools.jobs.jsx:182-188 | Restoring defaults twice equals restoring once. |
| `Jobs.ParameterMap` | src/scripts/dataset/dataset.tools.jobs.jsx:219-223 | The last entry's id maps to the last entry's value, and the object has at most one key per entry. |
| `Jobs.ParameterMapKeys` | src/scripts/dataset/dataset.tools.jobs.jsx:219-223 | The submitted object's keys are exactly the parameter ids. |
| `Jobs.ParameterMapLastWins` | src/scripts/dataset/dataset.tools.jobs.jsx:219-223 | Each id maps to the value of its last entry, so a later duplicate id wins. |
| `Jobs.AppParameters` | src/scripts/dataset/dataset.tools.jobs.jsx:196-201 | The chosen declarations are empty or are those of some app whose id matches. |
| `Jobs.AppParametersFirstMatch` | src/scripts/dataset/dataset.tools.jobs.jsx:196-201 | The selected declarations are those of the first app whose id matches. They are empty when no app matches. |
| `Jobs.FindAppParameters` | src/scripts/dataset/dataset.tools.jobs.jsx:196-201 | The search loop returns the first matching app's parameter declarations, or none if no app matches. |
| `Jobs.BuildParameters` | src/scripts/dataset/dataset.tools.jobs.jsx:202-211 | The list has one entry per declaration, in order. Each entry takes its declaration's id, label, description, type and default, and its value starts at the default. |
| `Jobs.CollectParameters` | src/scripts/dataset/dataset.tools.jobs.jsx:219-223 | The loop builds an object whose keys are exactly the parameter ids. Each id maps to the value of its last entry. |
| `Jobs.SelectBody` | src/scripts/dataset/dataset.tools.jobs.jsx:60-67 | The spinner shows iff `loading` or `loadingApps`. Its text is "Loading pipelines" while apps load, else "Starting <app>". Otherwise the message shows iff the message is truthy, and the form shows in the remaining case. The form carries the Start button iff `selectedApp` is non-empty. |
| `Jobs.StartButtonRule` | src/scripts/dataset/dataset.tools.jobs.jsx:131-139 | The Start button is on screen iff nothing loads, no message is shown and an app is selected. It is rendered only inside the form body. |
| `Jobs.ResultMessage` | src/scripts/dataset/dataset.tools.jobs.jsx:226-236 | An error with status 409 gives the "already been run" message. Any other error gives the "issue submitting" message. No error gives the "submitted" message. |
| `Jobs.ResultMessageDistinguishesOutcomes` | src/scripts/dataset/dataset.tools.jobs.jsx:227-236 | The message determines whether there was an error and, if so, whether the status was 409. |
| `Jobs.FinishedJobShowsMessage` | src/scripts/dataset/dataset.tools.jobs.jsx:237 | Once the callback has set the result and apps are loaded, the dialog shows the message body. |
| `Jobs.HiddenDialogShowsForm` | src/scripts/dataset/dataset.tools.jobs.jsx:14-139 | In the initial state, once apps are loaded, the dialog shows the form without a Start button. |
| `Jobs.JobMenu.constructor` | src/scripts/dataset/dataset.tools.jobs.jsx:12-21 | The initial state: not loading, no parameters, empty `selectedApp`, null message, no error. |
| `Jobs.JobMenu.Hide` | src/scripts/dataset/dataset.tools.jobs.jsx:146-155 | Hiding restores exactly the initial state. |
| `Jobs.JobMenu.UpdateParameter` | src/scripts/dataset/dataset.tools.jobs.jsx:164-177 | The in-place loop leaves the array equal to `Updated` of its old contents. |
| `Jobs.JobMenu.RestoreDefaultParameters` | src/scripts/dataset/dataset.tools.jobs.jsx:182-188 | The in-place loop leaves the array equal to `Restored` of its old contents. |
| `Jobs.JobMenu.SelectApp` | src/scripts/dataset/dataset.tools.jobs.jsx:193-213 | `selectedApp` becomes the chosen id. A fresh array holds one default-valued entry per declaration of the first matching app, so it is empty when none matches. Loading, message and error are kept. |
| `Jobs.JobMenu.StartJob` | src/scripts/dataset/dataset.tools.jobs.jsx:218-225 | Sets `loading`. Returns the request for dataset `test` and the selected app, with the submitted parameter object. Leaves the parameters, app, message and error alone. |
| `Jobs.JobMenu.FinishJob` | src/scripts/dataset/dataset.tools.jobs.jsx:225-238 | The callback clears `loading`, sets `error` iff `err`, and sets the message from `ResultMessage`. Parameters and app are kept. |

## Findings

| source | as written | input that shows it | evidently intended | confidence | as-written member | corrected member |
|---|---|---|---|---|---|---|
| packages/openneuro-server/src/graphql/permissions.js:101 | `Permission.findOne(...).exec()` is not awaited. The level test receives a pending promise, which has no `level`, so every identified non-admin is denied write and admin access. | Private dataset `ds001`, user `u1` holding `rw`, `userInfo.admin` false: the write check fails with the WRITE message. | Await the lookup and test the resolved record's level, as the read check does at line 69. | high, not executed | `Permissions.CheckDatasetWriteAsWritten` (`Permissions.AsWrittenCounterexample`, `Permissions.AsWrittenDeniesNonAdmins`) | `Permissions.CheckDatasetWrite` |

`CheckDatasetAdmin` and the policy lemmas use the corrected `CheckDatasetWrite`.

## Left out

- The MongoDB calls (`Dataset.count`, `Dataset.findOne`, `Permission.findOne`, `.exec()`) and async/await: the stores are maps and lookups are map reads.
- Store and network failures: the server distinguishes no third error class, so none is modelled.
- A permission lookup for an absent user id is modelled as finding nothing, since every stored record carries a user id. How MongoDB treats an `undefined` filter value is not modelled.
- Permissions.CheckDatasetWrite: requires `userInfo` for an identified user on an existing dataset. There the server reads `userInfo.admin` and would throw a TypeError if `userInfo` were undefined. The same holds for `CheckDatasetWriteAsWritten` and `CheckDatasetAdmin`.
- Permissions.CheckAdmin: requires `userInfo` for an identified user, for the same TypeError.
- `userInfo.admin` and the callback's `err` are modelled as booleans, not arbitrary JavaScript values.
- Jobs.JobMenu.FinishJob: stores `false` where the callback leaves `error` undefined on success, which has the same truthiness. It takes `status` as a plain input, so the throw when `err` is set and `res` is undefined is not modelled.
- Permissions.CheckAdmin: rejects with the bare message string (`Promise.reject(states.ADMIN.errorMessage)`), while the dataset checks throw `Error` objects. `Outcome.Fail` carries the message in both cases and does not tell the two apart.
- Missing parameter values: `Jobs.Value` has no `undefined` or `null`. A declaration without `value.default` would give an entry whose default and value are `undefined`. Restoring defaults would copy that `undefined`, and toggling a `bool` entry would turn it into `true`. Those entries are not modelled.
- The JSX markup of `render`, the per-type input widgets of `_parameters`, the `Modal` and `Spinner` components and the options list: these are UI only. Just the body-selection rule and the Start-button condition (`Jobs.SelectBody`, `Jobs.ShowsStart`) are kept.
- The network call `actions.startJob` and the parent's `onHide` callback. `StartJob` returns the request, and the callback's `(err, res.status)` is the input of `FinishJob`.
- Jobs.JobMenu.StartJob: does not model `Number(parameter.value)` on `number` parameters. That is a string-to-float conversion that also rewrites the entry in place; number values are opaque here and are submitted unchanged.
- Numbers are modelled as integers and strings as character sequences. Floating point and NaN truthiness are not modelled.
- React's `setState` is asynchronous and merges updates. The model applies each update at once, to the fields it names.
- Jobs.JobMenu.SelectApp: takes the apps list as a sequence. The throw from an undefined `apps` prop is not modelled.
- packages/openneuro-app/src/scripts/datalad/mutations/snapshot.jsx: a GraphQL mutation wrapper whose only logic is appending to a cached list. It is not part of this model.
- packages/openneuro-app/src/scripts/datalad/fragments/edit-description-field.jsx: a click-to-edit toggle with no algorithmic content. It is not part of this model.
