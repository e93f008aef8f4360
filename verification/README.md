# Toy-car manga generator: quota and gallery bookkeeping

This project models the server-side bookkeeping of the toy-car manga generator:
- Visitors upload a photo of a miniature car and get back a "manga render".
- Every render is published in a shared gallery, where visitors can like it.
- A global lifetime quota and a per-visitor daily quota cap how many renders are made.

The model covers six parts:

- **`LocalStore`** (`store.dfy`) models the in-memory store that the generate, settings and logs routes use. It holds:
  - the settings singleton;
  - the newest-first gallery and log;
  - the global generation counter;
  - one rate record (day key, count on that day, lifetime count) per visitor;
  - the set of generations each visitor likes.

  The `State` datatype and its transition functions (`Registered`, `LikeToggled`, `Merged`) are the specification. The class `LocalStore.Store` holds the same fields and updates them in place. Each method is proved to produce exactly the state the matching function describes, and to keep the store invariant `Invariant`.
- **`Storage`** (`storage.dfy`) models the second, independent store that the gallery route reads. A record's lifecycle has two phases: it is saved as `processing`, then completed or failed. Each user carries a daily counter, a lifetime counter and a list of liked generations. Its settings merge does not clamp. It has the same split into a value-level specification and a class.
- **`GenerateRoute`** (`generate_route.dfy`) models `POST /api/generate`.
  - The checks run in a fixed order: a missing image gives 400, a rate-limit refusal gives 429, and only then is the generation registered.
  - Over any sequence of requests, the route stays within the global quota and within each visitor's daily quota.
- **`SettingsRoute`** (`settings_route.dfy`) models `GET` and `POST /api/settings`. `POST` forwards exactly four fields to the clamping merge.
- **`VercelBlob`** (`vercel_blob.dfy`) models `generateFilename`, the path an uploaded image is stored under, including its rule for extracting the extension.
- **`Common`** (`common.dfy`) holds the JavaScript built-ins the core relies on:
  - `find`/`indexOf`, `slice(0, n)` and `filter`;
  - `toISOString().slice(0, 10)` as a day key;
  - decimal rendering of numbers.

Conventions used throughout:
- Clock readings are the ISO timestamp string `now`. Its first ten characters are the day key.
- Fresh ids (`nanoid`) are parameters, with the precondition that they are not already in use.
- The placeholder image renderer is an opaque function value `render`.

Behaviour of the code the model keeps:
- A successful generate request answers 200, not 201.
- The generate route has no 500 path.
- `storage.ts`'s `updateSettings` stores quotas as given, without clamping to 1 (`Storage.SettingsMergedDoesNotClamp`).
- `storage.ts`'s `updateGenerationOutput` accepts any record, whatever its current status. It does not enforce a forward-only status transition.
- The two stores keep their own status enumerations: `completed|blocked|failed` and `pending|processing|completed|error`.

## Model

| member | source | states |
|---|---|---|
| Common.DayKey | src/lib/store.ts:57-59 | the day key is the prefix of the ISO timestamp, ten characters long when the timestamp has at least ten |
| Common.DayKeyOfTimestamp | src/lib/store.ts:57-59 | for a timestamp `date + "T" + time`, the day key is exactly the ten-character full-date part, whatever the time of day |
| Common.NatToStringRoundTrip | src/lib/storage.ts:127 | the decimal digits a template literal produces for a non-negative count read back as that count |
| LocalStore.Store.constructor | src/lib/store.ts:36-48 | a fresh store has the default settings, the seed gallery, no logs, a counter equal to the seed size and no rate or like records, and satisfies the invariant |
| LocalStore.InitialInvariant | src/lib/store.ts:36-48 | the built store satisfies the invariant: quotas at least 1, counter equal to the gallery size, unique ids, likes covering likers, well-formed rate records |
| LocalStore.CheckRateLimit | src/lib/store.ts:61-84 | refused with the global reason exactly when the counter has reached the global quota. Otherwise refused with the daily reason exactly when the user's record is dated today and its count has reached the daily quota. An unknown user or a record from another day is allowed |
| LocalStore.Bumped | src/lib/store.ts:127-131 | the record is dated today, its count is one more than before if it was already dated today and 1 otherwise, and its lifetime count is one more |
| LocalStore.RegisteredEffect | src/lib/store.ts:86-144 | the new record is completed, safe and unliked, under the fresh id. Its prompt is the given one when non-empty, else the template. Its output is the input, else the placeholder. It becomes gallery[0], with the old gallery after it. A completed log entry naming it and the user becomes logs[0]. The counter grows by exactly one, and the user's record is bumped. Settings and likes are unchanged |
| LocalStore.Registered | src/lib/store.ts:86-144 | specified by `LocalStore.RegisteredEffect`: the store afterwards and the new record, as described in that row |
| LocalStore.RegisteredInvariant | src/lib/store.ts:86-144 | registering under fresh ids keeps the store invariant |
| LocalStore.Store.RegisterGeneration | src/lib/store.ts:86-144 | the in-place update yields exactly the state and record `Registered` describes, and keeps the invariant |
| LocalStore.Flipped | src/lib/store.ts:151-160 | after one toggle the id is in the liked set exactly when it was not before, and every other id keeps its membership |
| LocalStore.FlippedTwice | src/lib/store.ts:151-160 | flipping the same id twice gives the original set |
| LocalStore.LikeToggledEffect | src/lib/store.ts:146-162 | an unknown id returns nothing and changes nothing. Otherwise the first record with that id has its count lowered by one and floored at 0 when the user already liked it, or raised by one otherwise. Only that user's set changes, and only on that id. Nothing else changes |
| LocalStore.LikeToggled | src/lib/store.ts:146-162 | specified by `LocalStore.LikeToggledEffect`: the store afterwards and the updated record, or nothing for an unknown id, as described in that row |
| LocalStore.LikeToggledInvariant | src/lib/store.ts:146-162 | toggling keeps the invariant, so every like count stays at least the number of users who like the generation and is never negative |
| LocalStore.LikesCoverLikers | src/lib/store.ts:151-159 | in a store keeping the invariant, a like count is never negative, and it is positive when the user likes the generation |
| LocalStore.LikeToggledTwice | src/lib/store.ts:146-162 | two toggles in a row by the same user on the same generation restore every like count and that user's liked set, and change nothing else |
| LocalStore.Store.ToggleLike | src/lib/store.ts:146-162 | the in-place update yields exactly the state and result `LikeToggled` describes, and keeps the invariant |
| LocalStore.GetGallery | src/lib/store.ts:164-167 | the result is a prefix of the newest-first gallery, with min(limit, size) entries for a non-negative limit |
| LocalStore.GetLogs | src/lib/store.ts:169-172 | the result is a prefix of the newest-first log, with min(limit, size) entries for a non-negative limit |
| LocalStore.Merged | src/lib/store.ts:178-190 | every text key present in the patch replaces the stored value, even when that value is undefined, and an absent key keeps the stored one. Each quota becomes max(1, given quota), or max(1, stored quota) when the given one is missing or nullish |
| LocalStore.SettingsUpdatedInvariant | src/lib/store.ts:178-190 | a settings update keeps the store invariant |
| LocalStore.Store.UpdateSettings | src/lib/store.ts:178-190 | only the settings change, to the merge of the old settings with the patch, and the method returns the stored settings |
| Storage.Store.constructor | src/lib/storage.ts:34-43 | the store starts with no generations, no users and the default settings, and satisfies the invariant |
| Storage.InitialInvariant | src/lib/storage.ts:34-43 | the initial store satisfies the invariant: unique ids, `safe` exactly on completed records, duplicate-free liked lists naming existing generations, likes covering likers |
| Storage.Saved | src/lib/storage.ts:45-69 | the new record is processing, not safe and unliked, with an empty output, the given user and a prompt that is the given one or the template. It goes in front, the old records follow unchanged, and users and settings are untouched |
| Storage.SavedInvariant | src/lib/storage.ts:45-69 | saving under a fresh id keeps the invariant |
| Storage.SavedNotInGallery | src/lib/storage.ts:45-69 | saving a record leaves the public gallery's contents as they were |
| Storage.Store.SaveGeneration | src/lib/storage.ts:45-69 | the in-place prepend yields exactly the state and record `Saved` describes, and keeps the invariant |
| Storage.OutputUpdated | src/lib/storage.ts:71-84 | an unknown id returns nothing and changes nothing. Otherwise only the first record with that id changes: it gets the output and the status, and `safe` becomes true exactly when the status is completed |
| Storage.OutputUpdatedInvariant | src/lib/storage.ts:71-84 | recording an output keeps the invariant |
| Storage.Store.UpdateGenerationOutput | src/lib/storage.ts:71-84 | the in-place field writes yield exactly the state and result `OutputUpdated` describes, and keep the invariant |
| Storage.GetGallery | src/lib/storage.ts:86-90 | every record returned is completed and safe. The result is a prefix of the visible records in stored order, with min(limit, number visible) entries for a non-negative limit |
| Storage.Unliked | src/lib/storage.ts:112 | after the filter the id is absent, and every other id keeps its membership |
| Storage.FlippedList | src/lib/storage.ts:108-116 | after one toggle the id is in the list exactly when it was not before, and every other id keeps its membership |
| Storage.FlippedListDistinct | src/lib/storage.ts:108-116 | toggling keeps a liked list free of duplicates |
| Storage.LikeToggledEffect | src/lib/storage.ts:92-119 | an unknown generation returns nothing and creates no user. Otherwise the user exists afterwards, the first record with that id has its count moved by one (down and floored at 0 when already liked, up otherwise), the user's list flips on that id alone, no other user changes, and the settings are untouched |
| Storage.LikeToggled | src/lib/storage.ts:92-119 | specified by `Storage.LikeToggledEffect`: the store afterwards and the updated record, or nothing for an unknown generation, as described in that row |
| Storage.LikeToggledInvariant | src/lib/storage.ts:92-119 | toggling keeps the invariant: liked lists stay duplicate-free, and like counts stay at least the number of likers and so are never negative |
| Storage.LikesCoverLikers | src/lib/storage.ts:108-116 | in a store keeping the invariant, a like count is never negative, and it is positive when the user's list names the generation |
| Storage.LikeToggledTwice | src/lib/storage.ts:92-119 | two toggles in a row by the same user on the same generation restore every like count and the set of generations that user likes. The user stays on record, and nothing else changes |
| Storage.Store.ToggleLike | src/lib/storage.ts:92-119 | the in-place update yields exactly the state and result `LikeToggled` describes, and keeps the invariant |
| Storage.CheckRateLimit | src/lib/storage.ts:121-136 | refused with the global reason whenever the number of stored records, whatever their status, has reached the global quota. Otherwise refused with the daily reason exactly when the user exists, was last counted today and has reached the daily quota. Allowed in every other case |
| Storage.UnknownUserOnlyGloballyLimited | src/lib/storage.ts:121-136 | a user with no record is allowed exactly when the global quota is not reached |
| Storage.CountUpdated | src/lib/storage.ts:138-155 | only that user changes. Their daily count is one more when they were last counted today and 1 otherwise, their last date is today and their total grows by one. A new user starts at 1 and 1 with no likes |
| Storage.CountUpdatedInvariant | src/lib/storage.ts:138-155 | counting a generation keeps the invariant |
| Storage.Store.UpdateUserGenerationCount | src/lib/storage.ts:138-155 | the in-place update yields exactly the state `CountUpdated` describes, and keeps the invariant |
| Storage.SettingsMerged | src/lib/storage.ts:161-164 | every key present in the update replaces the stored value, and every absent key keeps it |
| Storage.SettingsMergedDoesNotClamp | src/lib/storage.ts:161-164 | a quota of zero or below is stored as given |
| Storage.Store.UpdateSettings | src/lib/storage.ts:161-164 | only the settings change, to the merge, and the method returns the stored settings |
| GenerateRoute.Respond | src/app/api/generate/route.ts:6-29 | a body without a truthy image gives 400 and leaves the store unchanged. Otherwise a rate refusal gives 429 with the limiter's reason verbatim and leaves the store unchanged. Otherwise the generation is registered with the body's image, prompt override and message under the same user id, and returned with the mock notice |
| GenerateRoute.Post | src/app/api/generate/route.ts:6-29 | the handler changes the store and answers exactly as `Respond` says, and keeps the store invariant |
| GenerateRoute.RespondEffect | src/app/api/generate/route.ts:6-29 | a request never changes the settings. A success needs the global quota not yet reached, puts its generation in front of the gallery and adds one to the counter. Any other response leaves the store unchanged |
| GenerateRoute.RespondOutputIsImage | src/app/api/generate/route.ts:18-28 | a successful response has status 200, and its generation's input and output are both the body's image, so the placeholder is never drawn through this route |
| GenerateRoute.RunGallery | src/app/api/generate/route.ts:18-28 | after any sequence of requests, the gallery is the new generations newest-first followed by the old gallery, the counter grew by their number, and the settings are unchanged |
| GenerateRoute.GlobalQuotaCap | src/app/api/generate/route.ts:13-18 | over any sequence of requests, the counter plus the number of successes never exceeds the larger of the starting counter and the global quota |
| GenerateRoute.DailyQuotaCap | src/app/api/generate/route.ts:13-18 | over any sequence of requests within one day, a user's count stored for that day plus their successes never exceeds the larger of that count and the daily quota |
| SettingsRoute.Forwarded | src/app/api/settings/route.ts:16-21 | all four keys are forwarded as present, each carrying the body's value or undefined |
| SettingsRoute.Get | src/app/api/settings/route.ts:5-7 | the response carries the stored settings, whose quotas are at least 1 in any store keeping the invariant |
| SettingsRoute.Respond | src/app/api/settings/route.ts:9-24 | a body that does not parse gives 400 and leaves the settings unchanged. Otherwise the settings become the clamping merge of the four forwarded fields, and the response carries exactly those settings |
| SettingsRoute.Post | src/app/api/settings/route.ts:9-24 | the handler changes only the settings, exactly as `Respond` says, and keeps the store invariant |
| SettingsRoute.PostQuotasPositive | src/app/api/settings/route.ts:16-23 | after any POST both stored quotas are at least 1, and a successful response carries exactly the stored settings |
| SettingsRoute.PostQuotaFields | src/app/api/settings/route.ts:16-21 | a quota given in the body is stored clamped to at least 1, and a quota absent from the body keeps its stored value |
| SettingsRoute.PostTextFields | src/app/api/settings/route.ts:16-21 | a text field the body lacks is forwarded as undefined and replaces the stored text |
| SettingsRoute.PostIgnoresOtherKeys | src/app/api/settings/route.ts:16-21 | keys other than the four settings fields have no effect |
| VercelBlob.LastSegment | src/lib/vercel-blob.ts:36 | the last piece is a dot-free suffix of the name, preceded by a `.` whenever it is not the whole name |
| VercelBlob.Extension | src/lib/vercel-blob.ts:36 | the extension is never empty and has no `.`. It is `jpg` when there is no name or the last piece is empty, and the last piece otherwise |
| VercelBlob.GenerateFilename | src/lib/vercel-blob.ts:33-38 | the path lies under `generations/<userId>/` |
| VercelBlob.LastSegmentWithoutDot | src/lib/vercel-blob.ts:36 | a name without `.` is its own last piece |
| VercelBlob.ExtensionFallback | src/lib/vercel-blob.ts:36 | an empty name, or one ending in `.`, falls back to `jpg` |
| VercelBlob.LastSegmentAfterDot | src/lib/vercel-blob.ts:36 | whatever precedes the last `.`, the last piece is the text after it |
| VercelBlob.FilenameExtensionRoundTrip | src/lib/vercel-blob.ts:33-38 | reading the extension back from a generated path with the same rule gives the chosen extension |

## Left out

- The UI pages, the Gemini client, the blob upload and delete calls and the test-blob route are not modelled. They are rendering, network calls and foreign calls, with no bookkeeping logic.
- Cookies are not modelled. The visitor id that `ensureUserCookie` reads or mints is an input of each request.
- The SVG placeholder renderer is not modelled. It is the opaque function value `render`, which `LocalStore.Store` keeps as a constant.
- The seed data is not modelled. Its ids, dates and like counts come from `nanoid`, `Date.now` and `Math.random`. The initial gallery is a parameter that satisfies `SeedGallery`: four completed, safe records with distinct ids and non-negative likes.
- `nanoid`, `new Date()`, `Date.now()` and `Math.random()` are parameters: fresh ids, the ISO timestamp `now`, the numeric timestamp and the random suffix.
- The lazy global singleton (`getStore`) and the module-level `store` object are not modelled as such. Each is the instance of its store class, created by its constructor.
- `getSettings` of `storage.ts` is a one-line read of a field of `Storage.Store`. The gallery and logs routes are one-line reads of `getGallery(60)` and `getLogs()`, and are not modelled separately.
- The like route (src/app/api/gallery/[id]/like/route.ts) is not modelled as a handler. It reads the visitor cookie, calls the mutating `toggleLike` of `storage.ts` (modelled by `Storage.Store.ToggleLike`), and answers 404 when that returns null and the updated record otherwise.
- The generate route reads the clock once in `checkRateLimit` and again in `registerGeneration`. Both readings are modelled as the single instant `now` of the request.
- JavaScript numbers are modelled as unbounded integers. NaN, fractions and non-numeric JSON values reaching the quota fields are not modelled.
- `null` and `undefined` are not distinguished. A JSON value of the wrong type, such as a numeric `image` or prompt, is not modelled. Bodies that parse to a falsy value such as `0` or `""` are treated like a body that does not parse.
- Records are values. In the source a returned record is the object stored in the list, and `updateGenerationOutput` and both `toggleLike`s later write fields of records that `saveGeneration`, `registerGeneration` or `getGallery` returned earlier. That aliasing is not modelled. Every route serialises the returned record into its JSON response at once, so no behaviour the routes show depends on it.
- User ids that name members of `Object.prototype` (such as `constructor`, `toString` or `__proto__`) are not modelled. `store.ts` keeps `perUser` and `likesByUser` in plain objects, and the visitor cookie may carry any value. For such an id the lookup finds the inherited member, so the `??` fallback does not fire. `registerGeneration` would then store a `NaN` lifetime, or replace the object's prototype for `__proto__`, and `toggleLike` would throw. The model's maps treat every id as an ordinary key, absent until first written.
- An explicit `undefined` value inside the partial given to `storage.ts`'s `updateSettings` is not modelled. No caller passes one, and each key is either absent or carries a value.
- The rejection texts of `store.ts` are fixed strings that mention 50 generations and once a day, whatever the configured quotas. They are modelled verbatim.
- Concurrency is not modelled. The handlers run one at a time.
- GenerateRoute.DailyQuotaCap: stated for a sequence of requests that all fall on one calendar day. Across days the daily count restarts, so the model states no cap there.
- LocalStore.LikeToggledTwice: requires a like count of at least 0, and at least 1 when the user already likes the generation. `LikesCoverLikers` proves this holds in every store that keeps the invariant. Without it, a negative count would be floored by the first toggle and not restored.
- Storage.LikeToggledTwice: restores which generations the user likes, not the order of the liked list. A removed id that is toggled back is appended at the end. The lemma also requires the like-count bound that `Storage.LikesCoverLikers` proves for every store keeping the invariant.
- VercelBlob.GenerateFilename: its contract states the directory prefix only. The extension is stated by `FilenameExtensionRoundTrip`, and the timestamp and random middle part are not given a separate property.
