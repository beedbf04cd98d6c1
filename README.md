# Project completion-status hook

A Dafny model of the lifecycle hooks of the `project` content type in a
CMS backend for tracking permits and construction/restoration projects.
Before a project record is created or updated, the framework hands the hooks
the write payload (`event.params.data`), a string-keyed record. When all four
milestone dates are present, the hook sets `project_status` to `"completed"`
in that payload, in place. These dates are construction start and end and
restoration start and end. When any of them is missing, the hook does
nothing. A status is never reset or downgraded.

Everything is in `lifecycles.dfy`, module `ProjectLifecycles`:

- `Value` is one JavaScript value in the payload: `Undefined`, `Null`, `Str(s)` or
  `Other` (numbers, booleans, Date objects and so on). `undefined` appears two
  ways: as a key missing from the map, or as a key explicitly mapped to
  `Undefined`. The presence test rejects both.
- `IsPresent` is the per-field test: the value is not `null`, not `undefined`
  and not the empty string. Only `Str("")` is empty. A blank string, `0` or
  `false` counts as present.
- `AllPresent` models `Array.prototype.every` over a list of field names.
  `AllDatesPresent` applies it to the constant `RequiredDates`.
- `Completion` is the value-level meaning of one run of the hook.
- `Event` is a class holding the mutable payload in `var data`.
  `MarkProjectCompletion`, `BeforeCreate` and `BeforeUpdate` are methods that
  change `event.data` in place, and each is proved equal to `Completion` of
  the old payload.

## Model

| member | source | states |
|---|---|---|
| ProjectLifecycles.AllPresent | src/api/project/content-types/project/lifecycles.ts:25-28 | the `every` test is true exactly when every listed field is present, i.e. none of them is absent, null, undefined or "" |
| ProjectLifecycles.AllDatesPresent | src/api/project/content-types/project/lifecycles.ts:1-6 | all dates are present iff each of the four named fields `const_start_date`, `const_end_date`, `rest_start_date`, `rest_end_date` passes the presence test |
| ProjectLifecycles.CompletedWhenAllDatesPresent | src/api/project/content-types/project/lifecycles.ts:25-31 | with all four dates present, the payload afterwards has `project_status == "completed"` |
| ProjectLifecycles.UnchangedWhenAnyDateMissing | src/api/project/content-types/project/lifecycles.ts:25-35 | if any one required date is null, undefined, absent or "", the payload is left exactly as it was, including any existing status |
| ProjectLifecycles.PayloadChangesIff | src/api/project/content-types/project/lifecycles.ts:30-35 | the payload changes iff all dates are present and the status was not already "completed" |
| ProjectLifecycles.OtherKeysUntouched | src/api/project/content-types/project/lifecycles.ts:21-36 | no key other than `project_status` is added, removed or changed |
| ProjectLifecycles.DatesUntouched | src/api/project/content-types/project/lifecycles.ts:21-36 | each of the four date fields keeps its presence and its value |
| ProjectLifecycles.OnlyCompletedIsWritten | src/api/project/content-types/project/lifecycles.ts:31-34 | the status afterwards is either "completed" or the value it had before; no other value is ever written |
| ProjectLifecycles.NoDowngrade | src/api/project/content-types/project/lifecycles.ts:30-35 | a payload whose status is already "completed" still has it afterwards, whatever the dates are |
| ProjectLifecycles.AllPresentDependsOnlyOnFields | src/api/project/content-types/project/lifecycles.ts:25-28 | two payloads that agree on the listed fields give the same `every` result |
| ProjectLifecycles.DecisionDependsOnlyOnDates | src/api/project/content-types/project/lifecycles.ts:1-6 | payloads agreeing on the four date keys get the same decision; changing any other key, the status included, does not change whether the status is set |
| ProjectLifecycles.Idempotent | src/api/project/content-types/project/lifecycles.ts:25-31 | running the rule twice gives the same payload as running it once |
| ProjectLifecycles.MarkProjectCompletion | src/api/project/content-types/project/lifecycles.ts:21-36 | changes the payload in place; the new payload is `Completion` of the old one, so every property proved about `Completion` holds of the hook |
| ProjectLifecycles.BeforeCreate | src/api/project/content-types/project/lifecycles.ts:12-14 | the create hook has exactly the effect of the completion rule on the payload |
| ProjectLifecycles.BeforeUpdate | src/api/project/content-types/project/lifecycles.ts:16-18 | the update hook has exactly the effect of the completion rule on the payload |
| ProjectLifecycles.HooksAgree | src/api/project/content-types/project/lifecycles.ts:12-18 | given the same payload, the create hook and the update hook leave identical payloads |
| ProjectLifecycles.HookTwice | src/api/project/content-types/project/lifecycles.ts:21-36 | running the hook twice on one event leaves the payload of a single run |

## Left out

- Asynchrony: the hooks are `async`, but nothing inside them awaits any work. They are modelled as synchronous methods.
- The lifecycle-event envelope: the framework's dispatch of `beforeCreate`/`beforeUpdate` is not modelled, and neither is any part of `event.params` other than `data`. `Event.data` stands for `event.params.data`; it is a map value held by the event, so the sharing of that one object with other holders of a reference to it (who would see the new `project_status`) is not represented. A missing `data` object is not modelled; in the source it would throw.
- Key order: a JavaScript object keeps its keys in insertion order, so adding `project_status` appends a key. A Dafny `map` has no order, so the model does not capture where the new key goes.
- Distinctions among non-null, non-string values (numbers, booleans, Dates, objects): they all read as present, so they are folded into `Value.Other`.
- The dashboard controllers and routes (`src/api/dashboard/controllers/dashboard.ts`, `src/api/dashboard/routes/dashboard.ts`) are not part of this model. They are SQL count queries, PDF layout through a third-party library, and static route configuration.
- The CSV import pipeline, date normalisation, permit-closeout mapping and geocoding are not part of this model. A route names `dashboard.uploadCsv`, but `src/api/dashboard/controllers/dashboard.ts` defines only `summary` and `generateProjectPDF`; there is no `uploadCsv` to model.
- One might read the rule as "completed if and only if all four dates are present". The code has no reset, because the `in_progress` assignment at `src/api/project/content-types/project/lifecycles.ts:34` is commented out. So a status that is already "completed" stays when dates are later cleared. The model follows the code; see `NoDowngrade` and `PayloadChangesIff`.
