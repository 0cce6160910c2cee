# Feature flags, route guard and jobs portal: a verified model

This project models the sequential logic of a web-application template built
from a base application and a jobs-portal layer (`portal-prueba`):

- the **feature-flag store**: the application configuration holds a flag set
  with the keys `auth` and `cart` and a `featuresInitializedFromServer` bit.
  `setFeatureFlags` replaces the whole set or does nothing.
  `initializeFeatureFlags` fetches the flags from `GET /api/feature-flags` at
  most until the first fetch that yields a set;
- the **feature-flags endpoint**: a success envelope with both features
  switched off, or a status-500 fallback envelope with `auth` switched on;
- the **global route middleware**: it sends `/features…` back to `/` unless the
  `password` cookie is `123456`, and it sends `/auth…` and `/cart…` back to `/`
  with a toast when the matching feature is off;
- the **jobs composable**: `applyFilters` (job type, location, free-text
  search), `updateFilters` and `clearFilters`;
- the **application endpoint** `POST /api/jobs/apply`: a required-field check,
  then an email pattern, then the saved record;
- the **jobs endpoint** `GET /api/jobs`: the active jobs of a fixed list.

Everything is a pure function over immutable datatypes. The route guard takes
the flag set as an argument and returns a decision, so it cannot change the
store. The network replies,
the `password` cookie, the clock readings and the random application id are
parameters.

Files, one module each:

- `wrappers.dfy` holds `Option` and `Result`.
- `text.dfy` holds `startsWith`, `includes`, `toLowerCase` and the `\s` class.
- `seqs.dfy` holds order-preserving filtering and the subsequence relation.
- `feature_flags.dfy` holds the flag data and the seed configuration.
- `flags_endpoint.dfy`, `flag_store.dfy` and `route_guard.dfy` model the three flag components.
- `job_types.dfy`, `job_filters.dfy`, `job_apply.dfy` and `job_listing.dfy` model the jobs layer.

Two facts about the code shape the model:

- The route guard tests the raw prefixes `/features`, `/auth` and `/cart`. It
  never reads a feature's `routes` list, so `/cartoon` is gated by the cart
  switch (`RouteGuard.PrefixNotRouteList`).
- `setFeatureFlags` ignores only a falsy argument (`null`/`undefined`). An
  empty object would be stored. The model's flag set always carries both keys,
  so only the missing case exists here.

## Model

| member | source | states |
|---|---|---|
| FeatureFlags.SeedConfig | app/app.config.ts:1-31 | the store starts not initialized from the server, with `auth` on and `cart` off |
| FeatureFlags.RoutesUnderPrefix | app/app.config.ts:8-23 | every route `auth` declares starts with `/auth`, and every route `cart` declares starts with `/cart`, whatever the switch |
| FlagsEndpoint.ServerFlags | server/api/feature-flags.get.ts:7-28 | the success branch serves a flag set with both features switched off |
| FlagsEndpoint.FallbackFlags | server/api/feature-flags.get.ts:60-75 | the fallback flag set has `auth` on and `cart` off |
| FlagsEndpoint.ErrorText | server/api/feature-flags.get.ts:83 | the fallback error is the thrown message when that is non-empty, otherwise `Error interno del servidor`; it is never empty |
| FlagsEndpoint.SuccessResponse | server/api/feature-flags.get.ts:6-52 | status 200 and `success`, no error, the all-off flags, version `1.0.0`, `initialized` true, the given clock readings |
| FlagsEndpoint.FallbackResponse | server/api/feature-flags.get.ts:54-86 | status 500, not `success`, the error text, the fallback flags, version `1.0.0-fallback`, no `initialized` field |
| FlagsEndpoint.HandleFeatureFlags | server/api/feature-flags.get.ts:7-88 | `success` and status 200 exactly when nothing was thrown. Both branches carry the same route lists and `cart` off. `auth` is on exactly in the fallback |
| FlagStore.Deliver | app/composables/useFeatureFlags.ts:28 | `data.value` holds the body of a 2xx response and is null otherwise |
| FlagStore.FeaturesFromBody | app/composables/useFeatureFlags.ts:27-33 | the result is `data.features` when every link of the path is present, and null as soon as one link is missing |
| FlagStore.ServerReplyReachesStore | app/composables/useFeatureFlags.ts:28-31 | the endpoint's success reply gives the client exactly the all-off flag set; the status-500 fallback gives it nothing |
| FlagStore.SetFeatureFlags | app/composables/useFeatureFlags.ts:57-64 | a missing argument leaves the configuration unchanged. A given one becomes the flag set exactly, with no per-key merge, and marks the store initialized. Tenant and theme never change |
| FlagStore.SetFeatureFlagsIdempotent | app/composables/useFeatureFlags.ts:57-64 | applying the same argument twice gives the state of applying it once |
| FlagStore.InitializeFeatureFlags | app/composables/useFeatureFlags.ts:66-78 | an initialized store is returned unchanged without a fetch. Otherwise the call fetches, keeps the state on an empty reply, and stores a non-empty reply and sets the flag |
| FlagStore.InitializedIsMonotone | app/composables/useFeatureFlags.ts:57-78 | once set, the initialized flag stays set under both operations |
| FlagStore.RunInitializations | app/composables/useFeatureFlags.ts:66-78 | over any sequence of calls there is at most one replacement and at most one fetch per call. An initialized store sees no fetch and no change. The flag ends set exactly when a replacement happened or it was already set |
| FlagStore.RunStopsAtFirstSuccess | app/composables/useFeatureFlags.ts:66-78 | from an uninitialized store, calls fetch up to and including the first non-empty reply, and that reply is the final flag set. Later calls do nothing |
| FlagStore.RunWithoutSuccess | app/composables/useFeatureFlags.ts:73-77 | while every reply is empty, every call fetches again and the configuration is unchanged |
| RouteGuard.FeatureGuard | app/middleware/features-flags.global.ts:8-40 | navigation is allowed exactly when neither the `/features` password check nor a disabled `/auth` or `/cart` feature rejects it. Every redirect goes to `/`. A toast is shown exactly for a disabled feature, and only with a redirect |
| RouteGuard.FeaturesIsNotAFeaturePath | app/middleware/features-flags.global.ts:12-30 | a path under `/features` is under neither `/auth` nor `/cart` |
| RouteGuard.FeaturesNeedsPassword | app/middleware/features-flags.global.ts:12-17 | under `/features`, the path is allowed exactly with cookie `123456`, whatever the flags. It is redirected without a toast otherwise |
| RouteGuard.UnguardedPathAllowed | app/middleware/features-flags.global.ts:8-40 | a path outside the three prefixes is allowed for any flags and cookie |
| RouteGuard.FeaturePathFollowsSwitch | app/middleware/features-flags.global.ts:19-39 | under `/auth` or `/cart`, the decision is allow when the feature is on, and redirect to `/` with a toast when it is off |
| RouteGuard.PrefixNotRouteList | app/middleware/features-flags.global.ts:30-39 | `/cartoon` is not a declared cart route, yet it is redirected with a toast when the cart is off |
| RouteGuard.DeclaredRoutesFollowSwitch | app/middleware/features-flags.global.ts:19-39 | with the shipped descriptors, each declared route of a feature is allowed exactly when that feature is on |
| RouteGuard.SeedDecisions | app/app.config.ts:8-23 | with the seed configuration, `/auth/login` is allowed and `/cart` is redirected to `/` with a toast |
| RouteGuard.ServerReplyClosesAuth | server/api/feature-flags.get.ts:13 | after the first initialization from the success reply, every `/auth` path the seed allowed is redirected with a toast |
| JobFilters.ApplyFilters | layers/portal-prueba/app/composables/useJobs.ts:32-55 | the three conditional passes equal one filter by the conjunction of the active filters. The output is a subsequence of the jobs in their order. A job is in it exactly when it is among the jobs and passes every active filter |
| JobFilters.ApplyFiltersIsOnePass | layers/portal-prueba/app/composables/useJobs.ts:32-55 | the three conditional passes select exactly what one pass by the conjunction of the active filters selects |
| JobFilters.ApplyFiltersSpec | layers/portal-prueba/app/composables/useJobs.ts:32-55 | the output is a subsequence of the jobs in their order. A job is in it exactly when it is among the jobs and passes every active filter (soundness and completeness) |
| JobFilters.ApplyFiltersSound | layers/portal-prueba/app/composables/useJobs.ts:35-52 | every output job has the filtered type. Its lowercased location contains the lowercased location filter. Its lowercased title, company or description contains the lowercased search term |
| JobFilters.EmptyFilters | layers/portal-prueba/app/composables/useJobs.ts:9-13 | the initial filters are all inactive |
| JobFilters.MergeFilters | layers/portal-prueba/app/composables/useJobs.ts:58-59 | a key present in the patch takes the patch's value, even `undefined`; an absent key keeps the current value |
| JobFilters.MergeFiltersLaws | layers/portal-prueba/app/composables/useJobs.ts:58-59 | merging a patch twice equals merging it once, and an empty patch is the identity |
| JobFilters.InitialJobsState | layers/portal-prueba/app/composables/useJobs.ts:4-13 | the initial state shows the filtered list of its (empty) jobs |
| JobFilters.LoadJobs | layers/portal-prueba/app/composables/useJobs.ts:20-22 | after loading, the shown list is the filtered list of the loaded jobs under unchanged filters |
| JobFilters.UpdateFilters | layers/portal-prueba/app/composables/useJobs.ts:58-61 | the filters become the merge and the shown list is re-filtered; the loaded jobs are unchanged |
| JobFilters.ClearFilters | layers/portal-prueba/app/composables/useJobs.ts:64-71 | every filter becomes inactive and the shown list equals the loaded jobs |
| JobApply.EmailPatternMatches | layers/portal-prueba/server/api/jobs/apply.post.ts:15 | the pattern `^[^\s@]+@[^\s@]+\.[^\s@]+$` matches exactly the strings with no whitespace, a single `@` that is not first, and after it a `.` with text on both sides |
| JobApply.EmailPatternIsShape | layers/portal-prueba/server/api/jobs/apply.post.ts:15 | a split of the string into the pattern's three runs around `@` and `.` exists exactly for strings with no whitespace, a single `@` that is not first, and after it a `.` with text on both sides |
| JobApply.EmailExamples | layers/portal-prueba/server/api/jobs/apply.post.ts:15 | `a@b.c` is accepted; `a@b`, `a@@b.c` and `a b@c.d` are rejected |
| JobApply.SavedApplication | layers/portal-prueba/server/api/jobs/apply.post.ts:27-32 | the saved record keeps every modelled field of the input except `id`, `appliedDate` and `status`. Those become the generated id, the clock reading and `pending` |
| JobApply.SubmitApplication | layers/portal-prueba/server/api/jobs/apply.post.ts:4-39 | a missing or empty required field gives 400 `Faltan campos requeridos`. Otherwise an email failing the pattern gives 400 `Email inválido`. Otherwise the result is the success envelope with `Postulación enviada exitosamente` and the saved record |
| JobApply.MissingEmailIsMissingField | layers/portal-prueba/server/api/jobs/apply.post.ts:7-21 | an empty or missing email is reported as a missing field, not as an invalid email |
| JobApply.AcceptedIsPending | layers/portal-prueba/server/api/jobs/apply.post.ts:27-32 | an accepted application is saved with status `pending` whatever status it carried. Restoring the three server fields gives back the input |
| JobListing.ActiveJobs | layers/portal-prueba/server/api/jobs.get.ts:205 | every returned job is active. A job is returned exactly when it is in the list and active. The result keeps the list's order |
| JobListing.ShippedJobs | layers/portal-prueba/server/api/jobs.get.ts:5-200 | the fixed list has six jobs, all active |
| JobListing.ListJobs | layers/portal-prueba/server/api/jobs.get.ts:3-206 | the handler returns only active jobs |
| JobListing.ListJobsReturnsAll | layers/portal-prueba/server/api/jobs.get.ts:5-205 | the handler returns the whole shipped list |
| JobListing.ShippedIds | layers/portal-prueba/server/api/jobs.get.ts:6-198 | the shipped ids are `1` to `6`, in order |
| JobListing.ListedIdsDistinct | layers/portal-prueba/server/api/jobs.get.ts:6-205 | the returned ids are `1` to `6` in order and pairwise distinct |

## Left out

- Network, framework and reactivity. `useFetch`, `$fetch`, `readBody`, `setHeaders`, `useCookie`, `navigateTo`, `useToast`, `useAppConfig`, `ref` and `readonly` are not modelled. Fetch replies and the cookie are inputs, and the redirect is a result value.
- FlagStore.Deliver: the rule that only a 2xx body reaches `data.value` is framework behaviour. It is not code of this repository, and the model assumes it.
- `getFeatureFlagsFromAppConfig` and `getFeatureFlagsInitializedFromAppConfig` only read the two configuration fields. They are the fields of `AppConfig` themselves.
- The feature-flags endpoint's CORS and `Cache-Control` headers are HTTP plumbing and are not modelled.
- The double fetch by interleaved `initializeFeatureFlags` calls is not modelled. Calls are taken one after another.
- Delays (`waitFor`, `setTimeout`) have no effect on the sequential outcome.
- Logging (`useLogger`, `console.error`) is not modelled.
- `Math.random` ids, `new Date().toISOString()` and `Date.now()` are parameters.
- Text.LowerChar: `toLowerCase` is modelled only for the capitals of Basic Latin and Latin-1 (A-Z, À-Þ except ×). Other characters are unchanged, and case mappings that change a string's length are not modelled.
- The guard's loose `!=` on a cookie that may be JSON-decoded is modelled as plain string equality. Under the loose comparison a cookie decoded to the number 123456 also passes; the model does not cover that.
- The toast's title, description and colour are reduced to one "toast shown" bit.
- Request bodies and server replies are taken to have the declared field types. A non-string `jobId` is not modelled, nor is a flag payload missing a key.
- JobApply.SavedApplication: the spread `{ ...application }` also echoes request-body keys outside the declared application fields. The record has a fixed set of fields, so those extra keys are not modelled.
- `fetchJobs` failure handling, the `loading`/`error` flags, `selectedJob` and `submitApplication` are reactive plumbing around the modelled operations.
- The tenant and theme entries of the configuration are carried as data only.
- Scaffolding scripts, linter and framework configuration, component tests, `ping`, the logger and version banners are not part of this model.
