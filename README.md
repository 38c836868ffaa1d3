# Educel core, modelled in Dafny

Educel is a Next.js application. It asks a language model for short
"learning cards" and keeps them per user in Supabase tables. A user can
bookmark cards, get a multi-day lesson plan, log analytics events and keep
topic and theme preferences. This project models the statable logic around
the network and database calls:

- **Topic canonicalisation** (`normalizeTopic`): trim, collapse whitespace
  runs, lowercase. It is the dedup key of stored cards.
- **Gatekeeping of model output** in `/api/generate`:
  - the three structural checks;
  - the markdown-fence stripper;
  - the bounded retry loop;
  - the request dispatch and its error mapping.
- **Input schemas**: every zod schema of `lib/validations.ts`, written as
  parsers from a JSON datatype into typed records.
- **The in-memory fixed-window rate limiter** and its two configured
  instances.
- **Route handlers** (`/api/learn`, `/api/learn/prefetch`, `/api/saved`,
  `/api/lesson-plan`, `/api/events`, `/api/prefs`). They run over an
  in-memory `Database` class whose `seq` tables the handlers update in
  place.
- **The sign-in callback's redirect sanitiser.**
- **Client-side selection logic** of the pages:
  - topic toggle and custom topics;
  - save guards and request bodies;
  - the curated/custom split;
  - the "teach me" routing;
  - the saved-list tabs and local delete;
  - the theme mappings.

Modules follow the source files. `Json` is the decoded-JSON datatype, with
JavaScript's property read, truthiness and object rest (`...rest`). `JsString` holds JavaScript's
`trim`, `\s`, `toLowerCase` and `split(/\s+/)`, `JsNumber` its
`parseInt`, and `Utf16` its string `length`, which zod's bounds count in
UTF-16 code units. `Table` holds the query
helpers `Where`, `.single()` and newest-first ordering. `Store` holds the
tables and the `Database` class, and `Http` the response values.

The model takes the following as parameters:

- **The language model:** an oracle `reply: nat -> ModelReply`, indexed by
  attempt.
- **`JSON.parse`:** a partial function.
- **`uuidv4()`:** a fresh-id parameter.
- **`Date.now()`:** an integer `now`.
- **`calculateExpiresAt()`:** an `expiresAt` parameter.
- **A failing database write:** a `writeFails` flag.
- **The engine's number-to-string conversion:** `num`.
- **The signed-in user:** an `Option<string>`.

## Model

| member | source | states |
|---|---|---|
| Discovery.NormalizeTopic | frontend/lib/discovery.ts:11-16 | the result is never longer than the input, has no edge whitespace, no whitespace but single spaces, and no ASCII capitals |
| Discovery.NormalizeIdempotent | frontend/lib/discovery.ts:11-16 | normalising a normalised topic changes nothing |
| Discovery.NormalTopicIsFixed | frontend/lib/discovery.ts:11-16 | every string already in normal form is its own normalisation |
| Discovery.NormalizeEmptyIffAllSpace | frontend/lib/discovery.ts:12-15 | a topic normalises to "" exactly when it is all whitespace |
| Discovery.NormalizeIgnoresCase | frontend/lib/discovery.ts:15 | two topics equal up to ASCII case normalise to the same string |
| Discovery.NormalizeOfLower | frontend/lib/discovery.ts:13-15 | lowercasing before normalising changes nothing |
| Discovery.NormalizeIgnoresSpaceKind | frontend/lib/discovery.ts:13-14 | replacing one non-empty whitespace run by another of any length or kind keeps the normalisation |
| Discovery.NormalizeOneRun | frontend/lib/discovery.ts:14 | an inner whitespace run counts as one space |
| Discovery.NormalizeIgnoresEdgeSpace | frontend/lib/discovery.ts:13 | whitespace added before or after a topic does not change its normalisation |
| Discovery.TrimStartOfSpacePrefix | frontend/lib/discovery.ts:13 | trimming the start drops a leading whitespace run |
| Discovery.TrimStartKeepsTail | frontend/lib/discovery.ts:13 | trimming the start of x+y touches only x when x has a non-space |
| Discovery.TrimEndOfSpaceSuffix | frontend/lib/discovery.ts:13 | trimming the end drops a trailing whitespace run |
| Discovery.TrimEndKeepsHead | frontend/lib/discovery.ts:13 | trimming the end of x+y touches only y when y has a non-space |
| Discovery.TrimOfAllSpace | frontend/lib/discovery.ts:13 | an all-whitespace string trims to "" |
| Discovery.CollapseFixesSingleSpaced | frontend/lib/discovery.ts:14 | collapsing a single-spaced string changes nothing |
| Discovery.TrimStartLower | frontend/lib/discovery.ts:13-15 | trimming the start commutes with lowercasing |
| Discovery.TrimEndLower | frontend/lib/discovery.ts:13-15 | trimming the end commutes with lowercasing |
| Discovery.CollapseLower | frontend/lib/discovery.ts:14-15 | collapsing runs commutes with lowercasing |
| Discovery.CollapseLeadingRun | frontend/lib/discovery.ts:14 | a leading whitespace run collapses to one space |
| Discovery.CollapseCons | frontend/lib/discovery.ts:14 | collapsing passes a non-space head through |
| Discovery.CollapseSpaceHead | frontend/lib/discovery.ts:14 | a string opening with whitespace collapses to one space plus the collapse of the rest |
| Discovery.CollapseAnyRun | frontend/lib/discovery.ts:14 | an inner run of any whitespace collapses like a single space |
| Discovery.CollapseInnerRun | frontend/lib/discovery.ts:14 | the collapse of a run followed by more text, by the run's start |
| Discovery.TrimAroundRun | frontend/lib/discovery.ts:13-14 | trimming commutes with replacing an inner run by one space |
| Discovery.ParseEventType | frontend/lib/discovery.ts:28-35 | exactly the six event-type names parse, each back to its own variant |
| Discovery.ParseSlot | frontend/lib/discovery.ts:42-46 | exactly "A", "B", "C" parse, each back to its own slot |
| Generate.IsValidLearnContent | frontend/app/api/generate/route.ts:9-23 | content that passes is a JSON object (never an array, though `typeof` lets arrays through) holding all seven checked keys |
| Generate.IsValidTopicOptions | frontend/app/api/generate/route.ts:25-34 | a passing response is an object whose `options` is an array of exactly three objects |
| Generate.IsValidClarifyResponse | frontend/app/api/generate/route.ts:36-44 | a passing response is an object holding both `question` and `options` |
| Generate.LearnContentCheckIgnoresOtherKeys | frontend/app/api/generate/route.ts:9-23 | `isValidLearnContent` ignores `sources` and every key it does not check |
| Generate.ChecksAcceptEmptyStrings | frontend/app/api/generate/route.ts:9-45 | all three checks accept empty strings |
| Generate.SchemaAcceptedPassesCheck | frontend/app/api/generate/route.ts:9-23 | content the learn-content schema accepts always passes `isValidLearnContent` |
| Generate.CheckWeakerThanSchema | frontend/app/api/generate/route.ts:9-23 | some content passes `isValidLearnContent` while the schema rejects it |
| Generate.StripFences | frontend/app/api/generate/route.ts:173-182 | the cleaned text is never longer than the reply and has no white space at either end |
| Generate.JsonFenceIsFence | frontend/app/api/generate/route.ts:174-177 | a "```json" opening is also a "```" opening |
| Generate.StripFencesNoFence | frontend/app/api/generate/route.ts:173-182 | trimmed text without an opening or closing fence comes back as the trimmed text |
| Generate.StripFencesJson | frontend/app/api/generate/route.ts:173-182 | "```json"+x+"```" reduces to trim(x) |
| Generate.StripFencesPlain | frontend/app/api/generate/route.ts:173-182 | "```"+x+"```" reduces to trim(x) when x does not start with "json" |
| Generate.DropOpeningJson | frontend/app/api/generate/route.ts:174-175 | one "```json" opening is removed |
| Generate.DropOpeningPlain | frontend/app/api/generate/route.ts:176-177 | one plain "```" opening is removed |
| Generate.DropClosing | frontend/app/api/generate/route.ts:179-181 | one closing fence is removed |
| Generate.NotJsonAfterAppend | frontend/app/api/generate/route.ts:174-177 | appending a fence does not make text start with "json" |
| Generate.PromptFor | frontend/app/api/generate/route.ts:70-140 | a prompt exists only for the five handled generation types |
| Generate.ExpandAndLessonPlanUnknown | frontend/app/api/generate/route.ts:138-139 | `expand_content` and `lesson_plan` throw "Unknown generation type: ..." |
| Generate.FollowUpOnlyForLearnMore | frontend/app/api/generate/route.ts:70-140 | a `prior_item` does not change a `learn_item` prompt |
| Generate.ClarifyPromptQuotes | frontend/app/api/generate/route.ts:100-111 | the "clarify_topic" prompt quotes `custom_topic` between its fixed head and tail |
| Generate.LearnItemPromptQuotes | frontend/app/api/generate/route.ts:113-136 | the "learn_item" prompt quotes a truthy `topic`, else `custom_topic`, with no follow-up note |
| Generate.DefaultBranchUnreachable | frontend/app/api/generate/route.ts:212-245 | every type with a prompt has a check, and a type without a check has already failed, so the 400 default branch is dead |
| Generate.CallFor | frontend/app/api/generate/route.ts:153-165 | attempt 0 sends the prompt verbatim, later attempts add the retry suffix; the model, token limit and system prompt are fixed |
| Generate.AttemptResult | frontend/app/api/generate/route.ts:167-192 | an attempt succeeds iff there is a text block that parses and passes the check; otherwise it gives the API, "No text content", parse or schema error |
| Generate.GenerateWithRetry | frontend/app/api/generate/route.ts:143-198 | at most maxRetries+1 calls in order; the first value that passes is returned; all earlier attempts failed; on failure every attempt was made and the last one's error is returned |
| Generate.Post | frontend/app/api/generate/route.ts:200-245 | a missing type or depth gives 400 with no call; an unknown type gives 500 with no call; a handled type makes one call when the first attempt's fenced-stripped, parsed reply passes that type's check and is answered with it, otherwise a second call, answered with its value if it passes and with 500 and the second attempt's error if not; a 200 answer passes the type's check; 400 only ever carries the missing-fields message |
| Types.ParseGenerateType | frontend/lib/types.ts:83-90 | exactly the seven generation-type names parse, each back to its own variant |
| Types.GenerateTypeNamesExact | frontend/lib/types.ts:83-90 | seven distinct names, and every variant round-trips |
| Types.SourceTypeNamesDistinct | frontend/lib/types.ts:5 | `source_type` has 4 distinct names, one per variant |
| Types.ResourceTypeNamesDistinct | frontend/lib/types.ts:46 | a resource `type` has 5 distinct names, one per variant |
| Types.ParseSourceType | frontend/lib/types.ts:5 | exactly the four source types parse, each back to its own name |
| Types.ParseResourceType | frontend/lib/types.ts:46 | exactly the five resource kinds parse, each back to its own name |
| Types.ParseDepth | frontend/lib/types.ts:58 | exactly "concise" and "deeper" parse |
| Types.ParseThemePref | frontend/lib/types.ts:59 | exactly "light", "dark" and "auto" parse |
| Types.ParseSavedKind | frontend/lib/validations.ts:68 | exactly "learning" and "lesson_plan" parse |
| Types.EnumRoundTrips | frontend/lib/types.ts:5-59 | every enumeration's name parses back to the same variant |
| Types.ConstantTableSizes | frontend/lib/types.ts:101-126 | 15 distinct curated topics and 6 rotating headlines |
| Types.TopicIconsCoverCurated | frontend/lib/types.ts:129-147 | the icon map's keys are the curated topics plus "default", and "default" maps to "Sparkles" |
| Validations.StrOf | frontend/lib/validations.ts:27-33 | `z.string().min().max()` accepts a string iff its JavaScript length (UTF-16 code units) is in range, and yields it unchanged |
| Utf16.Length | frontend/lib/validations.ts:27-33 | a string's JavaScript length lies between its character count and twice it |
| Validations.StrOfAstral | frontend/lib/validations.ts:27-33 | a string of code points above U+FFFF passes iff twice its character count is in range |
| Validations.StrOfBmp | frontend/lib/validations.ts:27-33 | a string within the Basic Multilingual Plane passes iff its character count is in range |
| Validations.UrlOf | frontend/lib/validations.ts:36 | a URL string of at most 2000 UTF-16 code units |
| Validations.UuidOf | frontend/lib/validations.ts:52 | a UUID string |
| Validations.ArrayOf | frontend/lib/validations.ts:4-17 | an array is accepted iff its length is in range and every element parses, elementwise |
| Validations.Req | frontend/lib/validations.ts:4-74 | a required key parses only when present |
| Validations.Opt | frontend/lib/validations.ts:58-60 | an absent optional key gives "none"; a present key that fails rejects the object |
| Validations.StrsRoundTrip | frontend/lib/validations.ts:5 | a list of strings survives its JSON form |
| Validations.StrsBounds | frontend/lib/validations.ts:5 | an accepted string list has a length in range and entries within their lengths |
| Validations.ParseEach | frontend/lib/validations.ts:4-17 | a list parses iff every element does, elementwise |
| Validations.ParseEachMap | frontend/lib/validations.ts:4-17 | a list's JSON form parses back to the list |
| Validations.ParseSourceLink | frontend/lib/validations.ts:34-37 | an accepted source has a 1..200-char title and a URL of at most 2000 chars |
| Validations.SourceLinkRoundTrip | frontend/lib/validations.ts:34-37 | a valid source survives its JSON form |
| Validations.LearnContentJson | frontend/lib/validations.ts:26-38 | the JSON form of learn content uses only the schema's keys |
| Validations.ParseLearnContent | frontend/lib/validations.ts:26-38 | accepted content has 3 bullets of 1..200 chars and every text field within its bounds |
| Validations.LearnContentRoundTrip | frontend/lib/validations.ts:26-38 | valid learn content survives its JSON form |
| Validations.LearnContentParseIdempotent | frontend/lib/validations.ts:26-38 | re-parsing the parsed content's JSON gives it back |
| Validations.LearnContentIgnoresUnknownKeys | frontend/lib/validations.ts:26-38 | unknown keys are stripped |
| Validations.LearnContentBadSourceRejects | frontend/lib/validations.ts:34-37 | one bad source rejects the whole object |
| Validations.LearnContentSourcesOptional | frontend/lib/validations.ts:34-37 | content without `sources` is accepted |
| Validations.ExpandedContentJson | frontend/lib/validations.ts:40-43 | the JSON form carries `paragraphs` and at most `additional_bullets` besides |
| Validations.AnyStrsOf | frontend/lib/validations.ts:41-42 | a string array of the given entry lengths, any count |
| Validations.ParseExpandedContent | frontend/lib/validations.ts:40-43 | accepted expanded content has 3..10 paragraphs; extra bullets are optional |
| Validations.ExpandedContentRoundTrip | frontend/lib/validations.ts:40-43 | valid expanded content survives its JSON form |
| Validations.ParseResource | frontend/lib/validations.ts:6-10 | an accepted resource has one of the five kinds and bounded fields |
| Validations.DayNumberOf | frontend/lib/validations.ts:13 | a day is an integer in 1..365 |
| Validations.ParseDay | frontend/lib/validations.ts:12-16 | an accepted day has a 1..200-char focus and 1..10 activities |
| Validations.ParseLessonPlanContent | frontend/lib/validations.ts:4-17 | accepted plans have 2..10 goals, 3..20 resources, 2..15 exercises and 7..90 days |
| Validations.DayRoundTrip | frontend/lib/validations.ts:12-16 | a valid day survives its JSON form |
| Validations.ResourcesRoundTrip | frontend/lib/validations.ts:6-10 | a valid resource list survives its JSON form |
| Validations.DaysRoundTrip | frontend/lib/validations.ts:12-16 | a valid day list survives its JSON form |
| Validations.LessonPlanContentRoundTrip | frontend/lib/validations.ts:4-17 | a valid lesson plan survives its JSON form |
| Validations.LessonPlanBadDayRejects | frontend/lib/validations.ts:13 | a day number outside 1..365 rejects the plan |
| Validations.ParseCreateLessonPlan | frontend/lib/validations.ts:19-23 | a 1..500-char topic, valid content, an optional UUID learn item |
| Validations.ParseCreateLearnItem | frontend/lib/validations.ts:45-49 | a 1..500-char topic, one of four source types, valid content |
| Validations.CreateLearnItemRoundTrip | frontend/lib/validations.ts:45-49 | a valid create request survives its JSON form |
| Validations.CreateLearnItemRejects | frontend/lib/validations.ts:45-49 | an unknown source type is rejected |
| Validations.ParseUpdateLearnItem | frontend/lib/validations.ts:51-54 | a UUID id and valid expanded content |
| Validations.ParseUpdateUserPrefs | frontend/lib/validations.ts:57-64 | at least one key; at most 20 topics of 1..100 chars; each key present iff sent |
| Validations.UpdateUserPrefsRejectsNoKeys | frontend/lib/validations.ts:62-64 | an object with none of the three keys is rejected |
| Validations.UpdateUserPrefsThemeOnly | frontend/lib/validations.ts:60 | a theme alone is a valid update |
| Validations.UpdateUserPrefsTooManyTopics | frontend/lib/validations.ts:58 | 21 topics are rejected |
| Validations.ParseCreateSavedItem | frontend/lib/validations.ts:67-74 | needs an item id or a learn item id; `item_type` defaults to learning |
| Validations.CreateSavedItemNeedsAnId | frontend/lib/validations.ts:71-74 | without either id the input is rejected |
| Validations.CreateSavedItemDefaultsToLearning | frontend/lib/validations.ts:68 | an input with only an item id is a learning bookmark |
| RateLimit.InMemoryRateLimiter.constructor | frontend/lib/rate-limit.ts:27-34 | an empty map with the given limit and window |
| RateLimit.InMemoryRateLimiter.Check | frontend/lib/rate-limit.ts:36-67 | the new map and the answer are one step of the fixed-window machine, and the bound invariant is kept |
| RateLimit.StepOpensWindow | frontend/lib/rate-limit.ts:40-49 | an unseen or expired id gets count 1 and a new window, and success with remaining max-1 |
| RateLimit.StepSpendsPermit | frontend/lib/rate-limit.ts:51-58 | inside the window below the limit, the count goes up by one, the window is kept, and remaining is max-count |
| RateLimit.StepRefuses | frontend/lib/rate-limit.ts:61-66 | at the limit inside the window, failure with remaining 0 and the map unchanged |
| RateLimit.StepBoundary | frontend/lib/rate-limit.ts:40 | `now == resetAt` is still inside the window; one millisecond later a new one opens |
| RateLimit.StepOthersUnchanged | frontend/lib/rate-limit.ts:38-52 | a check never touches another id's entry |
| RateLimit.StepReports | frontend/lib/rate-limit.ts:43-66 | the answer carries the limit and the entry's reset time, and 0 <= remaining < max |
| RateLimit.StepKeepsBounded | frontend/lib/rate-limit.ts:40-66 | every stored count stays between 1 and the limit |
| RateLimit.Run | frontend/lib/rate-limit.ts:36-67 | one answer per call |
| RateLimit.WithinWindowBound | frontend/lib/rate-limit.ts:40-66 | within one window an id gets at most max-count more successes |
| RateLimit.FreshWindowBound | frontend/lib/rate-limit.ts:40-66 | from the call that opens a window to its end, an id gets at most maxRequests successes |
| RateLimit.ClaudeLimit | frontend/lib/rate-limit.ts:72-73 | 20 in production, 100 otherwise |
| RateLimit.NewClaudeLimiter | frontend/lib/rate-limit.ts:84 | the model limiter: that limit per hour |
| RateLimit.NewApiLimiter | frontend/lib/rate-limit.ts:111 | the API limiter: 100 per 60000 ms |
| Store.InsertLearnItemRows | frontend/app/api/learn/route.ts:81-92 | an insert succeeds iff neither the id nor (user, topic) is taken, and then appends the row |
| Store.InsertLearnItemKeepsUnique | frontend/app/api/learn/route.ts:81-92 | an accepted insert keeps ids and (user, topic) unique |
| Store.UpsertLeavesOneRow | frontend/app/api/learn/prefetch/route.ts:121-135 | after an upsert on (user, topic) exactly one row has that key, carrying the new id, type, content and expiry |
| Store.UpsertLearnItemRows | frontend/app/api/learn/prefetch/route.ts:121-135 | refused only when some row already has the id; the table keeps its length when a row holds (user, topic), and otherwise gains the new row at the end |
| Store.OnlyIndexMatches | frontend/app/api/learn/prefetch/route.ts:131 | under the unique constraint one row matches a (user, topic) |
| Store.NoMatchIn | frontend/app/api/learn/prefetch/route.ts:131 | rows with other keys do not match |
| Store.UpsertOthersUnchanged | frontend/app/api/learn/prefetch/route.ts:121-135 | rows with another (user, topic) are untouched |
| Store.UpdateExpandedRows | frontend/app/api/learn/route.ts:127-136 | the table keeps its length |
| Store.UpdateExpandedOnlyMatching | frontend/app/api/learn/route.ts:127-136 | only the row matching (id, user) changes, and only its expanded content and time |
| Store.InsertSavedRows | frontend/app/api/saved/route.ts:54-62 | an insert succeeds iff the id is new and a learn item it names exists, and then appends the row |
| Store.InsertSavedKeepsUnique | frontend/app/api/saved/route.ts:54-62 | saved ids stay unique |
| Store.DeleteSavedRows | frontend/app/api/saved/route.ts:87-91 | the rows kept are exactly those not matching (user, learn item) |
| Store.DeleteSavedExact | frontend/app/api/saved/route.ts:87-91 | the delete keeps exactly the rows not matching (user, learn item), in order |
| Store.WhereKeepsSavedUnique | frontend/app/api/saved/route.ts:87-91 | deleting keeps ids unique |
| Store.InsertPlanRows | frontend/app/api/lesson-plan/route.ts:77-92 | a plan insert succeeds iff the id is new, and then appends |
| Store.InsertPlanKeepsUnique | frontend/app/api/lesson-plan/route.ts:77-92 | plan ids stay unique |
| Store.UpsertPrefsRow | frontend/app/api/prefs/route.ts:38-55 | sent keys are written, the others keep the stored value (or null for a new user), user_id and updated_at always set |
| Store.Database.InsertLearnItem | frontend/app/api/learn/route.ts:81-92 | appends iff the insert is allowed and the write does not fail; other tables untouched |
| Store.Database.UpsertLearnItem | frontend/app/api/learn/prefetch/route.ts:121-135 | the table becomes the upsert's result; other tables untouched |
| Store.Database.UpdateExpanded | frontend/app/api/learn/route.ts:127-136 | the table becomes the update's result |
| Store.Database.InsertSaved | frontend/app/api/saved/route.ts:54-62 | appends iff allowed |
| Store.Database.DeleteSaved | frontend/app/api/saved/route.ts:87-91 | removes the matching rows |
| Store.Database.InsertPlan | frontend/app/api/lesson-plan/route.ts:77-92 | appends iff allowed |
| Store.Database.InsertEvent | frontend/app/api/events/route.ts:64-73 | appends the event unless the write fails |
| Store.Database.UpsertPrefs | frontend/app/api/prefs/route.ts:53-55 | the user's row becomes the upserted row |
| PrefetchRoute.ParsePrefetch | frontend/app/api/learn/prefetch/route.ts:8-12 | topic 1..500 chars, 3..20 preferred topics, depth concise or deeper |
| PrefetchRoute.PrefetchRoundTrip | frontend/app/api/learn/prefetch/route.ts:8-12 | every valid request survives its JSON form |
| PrefetchRoute.PrefetchTooFewTopics | frontend/app/api/learn/prefetch/route.ts:10 | fewer than 3 preferred topics are rejected |
| PrefetchRoute.Lookup | frontend/app/api/learn/prefetch/route.ts:39-48 | the found row is the caller's and has the normalised topic |
| PrefetchRoute.LookupIgnoresCaseAndSpacing | frontend/app/api/learn/prefetch/route.ts:39-48 | topics that differ in case or in whitespace runs find the same row |
| PrefetchRoute.LookupFindsStoredRow | frontend/app/api/learn/prefetch/route.ts:43-48 | under the unique constraint a row is found iff one with the normalised topic exists |
| PrefetchRoute.GenerateFailure | frontend/app/api/learn/prefetch/route.ts:87-108 | the status passes through (0 becomes 500), and the rate-limit answer is given iff the status is 429 and the body parsed |
| PrefetchRoute.RateLimitNeedsABody | frontend/app/api/learn/prefetch/route.ts:89-102 | a 429 whose body is not JSON or is null falls back to "Generation failed" with status 429 |
| PrefetchRoute.GenerateFailureMessage | frontend/app/api/learn/prefetch/route.ts:88-107 | any other status carries the body's error message |
| Json.RestWithout | frontend/app/api/learn/prefetch/route.ts:113 | `{ _meta, ...rest }`: null throws; otherwise `rest` is a plain object without `_meta` holding every other own key of an object, nothing for a boolean or number, and element `i` under key `String(i)` for an array or string |
| PrefetchRoute.StoreCard | frontend/app/api/learn/prefetch/route.ts:116-142 | the answer is 200 exactly when the write does not fail and the upsert of the card row (old id or a fresh one, normalised topic, 'topic_choice', new expiry) is accepted, and then the table is that upsert's result with one row for (user, normalised topic); otherwise 500 "database error" and nothing changes |
| PrefetchRoute.Post | frontend/app/api/learn/prefetch/route.ts:14-143 | 401 and 400 before any table access; a live card is served as cached with nothing generated or written; otherwise the topic as given is sent for generation; a thrown fetch answers 500 with its message as `details`, a non-ok status passes through, and a 2xx body that is not JSON or is null crashes, each with nothing written; for a 2xx body that destructures, the answer is 200 exactly when the write does not fail and the upsert of the card row (the stored row's id or a fresh one) is accepted, the table then being that upsert's result with one row for the key holding the body without `_meta`, and otherwise 500 "database error" with nothing written |
| JsNumber.DigitValue | frontend/app/api/learn/route.ts:20 | a digit's value is below the radix |
| JsNumber.DigitRun | frontend/app/api/learn/route.ts:20 | the longest digit prefix `parseInt` reads |
| JsNumber.DecimalString | frontend/app/api/learn/route.ts:20 | the decimal form of a number is non-empty and all digits |
| JsNumber.DecimalValue | frontend/app/api/learn/route.ts:20 | the digits of a decimal form read back as the number |
| JsNumber.DigitRunAppend | frontend/app/api/learn/route.ts:20 | `parseInt` stops where the digits stop |
| JsNumber.TrimStartNoSpace | frontend/app/api/learn/route.ts:20 | `parseInt` skips no text that does not start with whitespace |
| JsNumber.MagnitudeOfDecimal | frontend/app/api/learn/route.ts:20 | a decimal form followed by a non-digit reads back as its value |
| JsNumber.ParseIntDecimal | frontend/app/api/learn/route.ts:20 | `parseInt` reads a decimal number back |
| JsNumber.ParseIntNegative | frontend/app/api/learn/route.ts:20 | and its negation |
| JsNumber.ParseIntMinus | frontend/app/api/learn/route.ts:20 | a minus sign before text of magnitude v reads as -v |
| JsNumber.ParseIntTen | frontend/app/api/learn/route.ts:20 | the default text "10" reads as 10 |
| JsNumber.ParseIntNaN | frontend/app/api/learn/route.ts:20 | "" and "abc" are NaN |
| LearnRoute.Clamp | frontend/app/api/learn/route.ts:21 | an integer is clamped into 1..100 and kept when already inside; NaN stays NaN |
| LearnRoute.ListLimit | frontend/app/api/learn/route.ts:20-21 | any limit it gives is in 1..100 |
| LearnRoute.ListLimitDefault | frontend/app/api/learn/route.ts:20 | an absent or empty `limit` parameter gives 10 |
| LearnRoute.ListLimitClamps | frontend/app/api/learn/route.ts:20-21 | a requested integer becomes clamp(n, 1, 100) |
| LearnRoute.ListLimitNegative | frontend/app/api/learn/route.ts:20-21 | a negative request becomes 1 |
| LearnRoute.ListLimitNaN | frontend/app/api/learn/route.ts:20-21 | a non-number gives no limit |
| LearnRoute.ListFor | frontend/app/api/learn/route.ts:38-43 | `min(limit, n)` of the caller's n rows, newest first, each row at most as often as stored (a sub-multiset of the caller's rows) |
| LearnRoute.ListForKeepsNewest | frontend/app/api/learn/route.ts:42-43 | a row of the caller's that was cut is no newer than any listed row |
| LearnRoute.ById | frontend/app/api/learn/route.ts:23-29 | the found row has that id and is the caller's |
| LearnRoute.ByIdIsScoped | frontend/app/api/learn/route.ts:27-28 | another user's row with that id is never found |
| LearnRoute.Get | frontend/app/api/learn/route.ts:5-50 | 401 without a user; by id, the row or 404; otherwise the list under the clamped limit, or 500 when the limit is NaN |
| LearnRoute.Post | frontend/app/api/learn/route.ts:52-99 | 401, 400 for bad JSON or data, with no write; otherwise one row with a fresh id, the topic as given and the expiry, or 500 with no write |
| LearnRoute.PostDuplicateTopicRefused | frontend/app/api/learn/route.ts:81-92 | a second card with the same (user, topic) is refused by the table |
| LearnRoute.Patch | frontend/app/api/learn/route.ts:101-143 | 401, 400 with no write; otherwise only the (id, user) row's expanded content and time change |
| SavedRoute.SavedFor | frontend/app/api/saved/route.ts:14-21 | exactly the caller's rows, each once, newest first |
| SavedRoute.Embed | frontend/app/api/saved/route.ts:16-19 | the embedded learn item is the one the row references |
| SavedRoute.EmbedFindsReferenced | frontend/app/api/saved/route.ts:16-19 | an existing referenced learn item is always embedded |
| SavedRoute.Get | frontend/app/api/saved/route.ts:5-28 | 401 without a user, else the caller's list with the learn items embedded |
| SavedRoute.LearnItemIdOf | frontend/app/api/saved/route.ts:40 | the property when the body has it |
| SavedRoute.LearnItemColumn | frontend/app/api/saved/route.ts:56-60 | an absent or null id is stored as null, a string as itself, any other value is refused |
| SavedRoute.Post | frontend/app/api/saved/route.ts:30-69 | an already saved (user, learn item) gives 400 "Already saved" and no write; otherwise one row is inserted, or 500 with no write; only saved_items changes |
| SavedRoute.MatchIsSingle | frontend/app/api/saved/route.ts:43-52 | with no duplicate bookmarks, an existing bookmark is the one match `.single()` finds |
| SavedRoute.PostKeepsNoDuplicates | frontend/app/api/saved/route.ts:43-62 | an accepted POST keeps at most one bookmark per (user, learn item) |
| SavedRoute.DeleteTarget | frontend/app/api/saved/route.ts:80-85 | the target exists iff `learn_item_id` is present and non-empty |
| SavedRoute.Delete | frontend/app/api/saved/route.ts:71-98 | without `learn_item_id`, 400 and no change; otherwise the matching rows are removed, or 500 with no change |
| SavedRoute.DeleteRemovesExactly | frontend/app/api/saved/route.ts:87-91 | a row is removed iff it matches (user, learn item) |
| SavedRoute.DeleteKeepsNoDuplicates | frontend/app/api/saved/route.ts:87-91 | the delete keeps the no-duplicate invariant |
| SavedRoute.DeleteKeyOf | frontend/app/saved/page.tsx:40 | the corrected handler reads `learn_item_id` as before, otherwise `item_type` with a non-empty `item_id` |
| SavedRoute.KeyQueryRoundTrip | frontend/app/saved/page.tsx:40 | every key with an id survives its query string |
| SavedRoute.DeleteKeyRows | frontend/app/api/saved/route.ts:87-91 | the corrected delete keeps exactly the rows not matching the key |
| SavedRoute.DeleteKeyExtendsDelete | frontend/app/api/saved/route.ts:80-91 | on a `learn_item_id` query the corrected delete is the original one |
| LessonPlanRoute.PlanById | frontend/app/api/lesson-plan/route.ts:18-31 | the found plan has that id and is the caller's |
| LessonPlanRoute.PlanByIdFinds | frontend/app/api/lesson-plan/route.ts:18-31 | with unique ids, the caller's plan is found and another user's never is |
| LessonPlanRoute.PlanForItem | frontend/app/api/lesson-plan/route.ts:33-46 | the found plan is the caller's plan for that learn item |
| LessonPlanRoute.TwoPlansHideBoth | frontend/app/api/lesson-plan/route.ts:33-46 | two plans for one learn item read as none |
| LessonPlanRoute.PlansFor | frontend/app/api/lesson-plan/route.ts:49-59 | exactly the caller's plans, each once, newest first |
| LessonPlanRoute.Get | frontend/app/api/lesson-plan/route.ts:5-60 | 401; by id, the plan or 404; by learn item, the plan or null; otherwise the caller's list |
| LessonPlanRoute.PlanTitle | frontend/app/api/lesson-plan/route.ts:83 | a truthy title is kept, else "Lesson Plan: " and the topic as a template string |
| LessonPlanRoute.UntitledWithoutTopic | frontend/app/api/lesson-plan/route.ts:83 | without title and topic the title reads "Lesson Plan: undefined" |
| LessonPlanRoute.PlanRow | frontend/app/api/lesson-plan/route.ts:77-89 | fresh id, caller, now; a falsy learn item id is null; topic and content as sent |
| LessonPlanRoute.Post | frontend/app/api/lesson-plan/route.ts:62-111 | a failed plan insert gives 500 and writes nothing; after a plan insert one bookmark is tried without checking for duplicates, and `autoSaved` is whether it was written |
| LessonPlanRoute.NewPlanIsReachable | frontend/app/api/lesson-plan/route.ts:95-103 | a new plan is found by id; its bookmark shows on the lesson-plan tab, opens nothing, and its key reaches the corrected delete |
| Validations.AnyStr | frontend/app/api/events/route.ts:14 | exactly the JSON strings, of any length, are accepted, each as itself |
| EventsRoute.EventTypeOf | frontend/app/api/events/route.ts:6-13 | one of the six event-type names |
| EventsRoute.SlotOf | frontend/app/api/events/route.ts:16 | A, B or C |
| EventsRoute.RecordOf | frontend/app/api/events/route.ts:17 | any object |
| EventsRoute.ParseEvent | frontend/app/api/events/route.ts:5-18 | an accepted event has a known type, a UUID learn item if any, and keeps topic and meta iff sent; a bad slot rejects it |
| EventsRoute.EventRoundTrip | frontend/app/api/events/route.ts:5-18 | every event with a UUID learn item survives its JSON form |
| EventsRoute.StoredText | frontend/app/api/events/route.ts:54 | the `->>` text of a stored scalar is its string form |
| EventsRoute.AlreadyViewed | frontend/app/api/events/route.ts:47-60 | a view counts as logged iff exactly one stored view of that card by that user has the same session text (`.single()`), so two earlier views let a third through |
| EventsRoute.Post | frontend/app/api/events/route.ts:20-81 | 401 and 400 with no write; a repeated view in the same session answers deduplicated with no write; every other event appends one row with meta or {}, or 500 with no write |
| EventsRoute.SecondViewDeduplicated | frontend/app/api/events/route.ts:47-73 | the first view in a session is not a duplicate and is logged; the same view sent again is deduplicated |
| PrefsRoute.PrefsOrNull | frontend/app/api/prefs/route.ts:13-23 | no row reads as null |
| PrefsRoute.Get | frontend/app/api/prefs/route.ts:4-24 | 401 without a user, else the caller's row or null |
| PrefsRoute.UpdateOf | frontend/app/api/prefs/route.ts:35-51 | a column is written iff its key is in the body (null included), with the body's value |
| PrefsRoute.Post | frontend/app/api/prefs/route.ts:26-64 | 401 with no write; the user's row becomes the partial upsert, or 500 with no write |
| PrefsRoute.PostThenGet | frontend/app/api/prefs/route.ts:38-55 | after a POST, a GET shows each sent key's value and each unsent key's old value (null for a new user) |
| PrefsRoute.PostSkipsSchema | frontend/app/api/prefs/route.ts:36-51 | a theme the schema rejects is stored all the same |
| AuthCallback.IsValidRedirect | frontend/app/auth/callback/route.ts:11 | valid iff the path starts with "/" and its second character, if any, is not "/" |
| AuthCallback.NextParam | frontend/app/auth/callback/route.ts:7 | `next` defaults to "/" |
| AuthCallback.SafePath | frontend/app/auth/callback/route.ts:11-12 | the path starts with "/" and not "//"; it is `next` iff `next` is valid, else "/" |
| AuthCallback.SafePathIdempotent | frontend/app/auth/callback/route.ts:11-12 | sanitising twice is sanitising once |
| AuthCallback.Redirect | frontend/app/auth/callback/route.ts:5-24 | origin plus the safe path iff a code is present and the exchange succeeds, else origin plus the error path |
| AuthCallback.RedirectStaysOnOrigin | frontend/app/auth/callback/route.ts:11-23 | the redirect always stays on the origin and never starts a protocol-relative path |
| AuthCallback.RedirectHonoursSafeNext | frontend/app/auth/callback/route.ts:11-20 | a valid `next` is followed exactly |
| ThemeDropdown.DbTheme | frontend/components/theme-dropdown.tsx:26-31 | system is stored as auto; light and dark pass through |
| ThemeDropdown.DbThemeInjective | frontend/components/theme-dropdown.tsx:26-31 | different UI themes are stored differently |
| ThemeDropdown.Label | frontend/components/theme-dropdown.tsx:53-62 | Light for light, Dark for dark, Auto for anything else |
| ThemeDropdown.CurrentIcon | frontend/components/theme-dropdown.tsx:42-51 | Sun, Moon or Monitor, matching the label |
| TopicPicker.Without | frontend/app/settings/page.tsx:98-101 | removes every copy of the topic and nothing else, keeping the rest's multiset and distinctness |
| TopicPicker.WithoutKeepsOrder | frontend/app/onboarding/page.tsx:43-45 | removal keeps the order of the rest |
| TopicPicker.WhereKeepsDistinct | frontend/app/settings/page.tsx:98-101 | filtering keeps a list distinct |
| TopicPicker.WhereDropsOne | frontend/app/settings/page.tsx:98-101 | filtering out a topic sets its count to 0 and keeps every other count |
| TopicPicker.Toggle | frontend/app/settings/page.tsx:80-87 | the topic's membership flips, no other topic's does; an absent topic is appended |
| TopicPicker.ToggleTwice | frontend/app/onboarding/page.tsx:27-33 | toggling twice restores membership, and the list itself when the topic was absent |
| TopicPicker.AddCustom | frontend/app/settings/page.tsx:89-96 | the trimmed input is appended and the field cleared iff it is non-empty, new and not curated; otherwise nothing changes; the custom-list invariant is kept |
| TopicPicker.RemoveKeepsCustomOk | frontend/app/onboarding/page.tsx:43-45 | removal keeps the custom-list invariant and shortens the list by exactly one when the topic was there |
| TopicPicker.DistinctCountsOne | frontend/app/settings/page.tsx:98-101 | a distinct list holds a present topic once |
| SettingsPage.SplitTopics | frontend/app/settings/page.tsx:57-69 | the curated and custom lists are the stored topics filtered in order, and together they hold the same multiset |
| SettingsPage.SplitIsPartition | frontend/app/settings/page.tsx:57-69 | the two filters partition the multiset |
| SettingsPage.StringsOf | frontend/app/settings/page.tsx:57-58 | a string array |
| SettingsPage.ThemeOrAuto | frontend/app/settings/page.tsx:71 | a falsy theme reads as auto |
| SettingsPage.LoadPrefs | frontend/app/settings/page.tsx:47-78 | no prefs leaves the form; otherwise the split lists, the stored depth and the theme or auto |
| SettingsPage.PrefsBody | frontend/app/settings/page.tsx:115-124 | the body carries exactly the topics and the depth and theme that are set |
| SettingsPage.SaveBody | frontend/app/settings/page.tsx:103-124 | refused with the message iff fewer than 3 curated topics; else selected then custom, depth and theme |
| SettingsPage.SaveBodyPassesSchema | frontend/app/settings/page.tsx:115-124 | a valid form's body passes the preferences schema with the same values |
| SettingsPage.ReloadSplitsAsSaved | frontend/app/settings/page.tsx:57-69 | reloading a saved selection splits it back into the same two lists |
| OnboardingPage.SaveBody | frontend/app/onboarding/page.tsx:47-66 | refused iff fewer than 2 topics in all; else selected then custom and depth, no theme |
| OnboardingPage.SaveBodyPassesSchema | frontend/app/onboarding/page.tsx:59-66 | the body passes the preferences schema with the same values |
| OnboardingPage.OnboardingLeavesTheme | frontend/app/onboarding/page.tsx:59-66 | saving stores topics and depth and leaves the theme as it was, unset for a new user |
| HomePage.AppliedTheme | frontend/app/page.tsx:71-73 | a falsy theme is not applied; auto is applied as system; others pass through |
| HomePage.Or | frontend/app/page.tsx:163-164 | JavaScript `a \|\| b` |
| HomePage.ThemeChangeBody | frontend/app/page.tsx:156-170 | the body keeps the stored topics (or []) and depth (or concise) and sets the theme |
| HomePage.ThemeChoiceRoundTrip | frontend/app/page.tsx:72 | a theme chosen in the dropdown is stored by its database name and applied back as the same UI theme |
| HomePage.GenerateBody | frontend/app/page.tsx:226-231 | the request carries the type, the stored topics and depth, and the subject |
| HomePage.HandleTeachMe | frontend/app/page.tsx:215-284 | nothing on empty input or no prefs; clarify iff at most two words; the raw input is the custom topic; what is then saved is `HomePage.TeachMeSave` |
| HomePage.TeachMePrompts | frontend/app/api/generate/route.ts:100-136 | the prompts those requests produce embed the raw input |
| HomePage.SplitOneWord | frontend/app/page.tsx:219 | a word splits into itself |
| HomePage.SplitFirstWord | frontend/app/page.tsx:219 | a word followed by whitespace and more text splits into the word and the rest's words |
| HomePage.OneWordClarifies | frontend/app/page.tsx:219-231 | one word asks for clarification |
| HomePage.TwoWordsClarify | frontend/app/page.tsx:219-231 | two words ask for clarification |
| HomePage.ThreeWordsGenerate | frontend/app/page.tsx:219-220 | three words generate a card |
| HomePage.ClarifiedTopic | frontend/app/page.tsx:291 | the input, ": ", then the angle |
| HomePage.HandleClarifySelect | frontend/app/page.tsx:286-331 | the card is requested for the clarified topic; what is then saved is `HomePage.ClarifySave` |
| HomePage.HandleTopicSelect | frontend/app/page.tsx:173-213 | the card is requested for the chosen topic; what is then saved is `HomePage.TopicSelectSave` |
| HomePage.ClarifyPrompt | frontend/app/page.tsx:291 | the clarified topic reaches the prompt verbatim |
| HomePage.TopicSelectPrompt | frontend/app/page.tsx:178-203 | the chosen topic reaches the prompt verbatim |
| HomePage.SaveRequest | frontend/app/page.tsx:188-203 | a card is stored only when the generation answer is not null and has no truthy error |
| HomePage.CardStoredAsSent | frontend/app/page.tsx:196-203 | a stored card passes the create schema with the raw topic and the source type sent |
| HomePage.TopicSelectSave | frontend/app/page.tsx:188-203 | after a suggestion is picked, a save is sent iff the answer is not null and has no truthy error, and it carries the suggested topic, 'topic_choice' and the answer as content |
| HomePage.TeachMeSave | frontend/app/page.tsx:258-273 | after a teach-me of three or more words, a save is sent iff the answer is not null and has no truthy error, and it carries the input as typed, 'teach_me' and the answer as content |
| HomePage.ClarifySave | frontend/app/page.tsx:292-318 | after an angle is picked, a save is sent iff the answer is not null and has no truthy error, and it carries "input: angle", 'teach_me' and the answer as content |
| HomePage.TopicSelectSaveParses | frontend/app/page.tsx:195-203 | a valid card saved after picking a suggestion passes the create schema as a 'topic_choice' card under the suggested topic |
| HomePage.TeachMeSaveParses | frontend/app/page.tsx:264-273 | a valid card saved after a direct teach-me passes the create schema as a 'teach_me' card under the raw input |
| HomePage.ClarifySaveParses | frontend/app/page.tsx:292-318 | a valid card saved after picking an angle passes the create schema as a 'teach_me' card under "input: angle" |
| SavedPage.Loaded | frontend/app/saved/page.tsx:23-35 | one list entry per caller's row |
| SavedPage.LoadedMembers | frontend/app/saved/page.tsx:23-35 | the page lists exactly the caller's rows, each with the learn item it references |
| SavedPage.OnTab | frontend/app/saved/page.tsx:49-52 | a tab shows exactly the items of its type |
| SavedPage.AllTabShowsAll | frontend/app/saved/page.tsx:50 | the All tab shows the whole list |
| SavedPage.CountsPartition | frontend/app/saved/page.tsx:54-55 | the two type counts plus the untyped items make up the list |
| SavedPage.OpenTarget | frontend/app/saved/page.tsx:37-55 | only a learning row with its learn item opens a card, that item's page |
| SavedPage.OpenTargetIsReferenced | frontend/app/saved/page.tsx:23-35 | the card opened is the one the row references |
| SavedPage.DeleteQuery | frontend/app/saved/page.tsx:40 | the request names no `learn_item_id` |
| SavedPage.LocalDelete | frontend/app/saved/page.tsx:41 | the list keeps exactly the items not matching (item_id, item_type) |
| SavedPage.HandleDeleteAsWritten | frontend/app/saved/page.tsx:37-41 | as written, the table comes back unchanged while the list loses every item with the clicked `item_id` and `item_type` |
| SavedPage.PageDeleteLeavesRow | frontend/app/saved/page.tsx:37-41 | as written, the server refuses the request and keeps the row while the list drops it and every row sharing its id and type |
| SavedPage.KeyFor | frontend/app/saved/page.tsx:37-41 | a row's key has an id and matches the row |
| SavedPage.HandleDelete | frontend/app/saved/page.tsx:37-41 | corrected: with a key, table and list both lose exactly the rows that key matches; without one, nothing changes |
| SavedPage.HandleDeleteAgrees | frontend/app/saved/page.tsx:37-41 | with the corrected key the clicked row leaves both table and list, and the list equals what a reload shows |

## Left out

- The language model is an oracle indexed by attempt. `JSON.parse` and
  `req.json()` are parameters or results. The retry loop has no backoff,
  as in the source.
- Supabase is replaced by in-memory tables:
  - Auth is an optional user id.
  - A failing read is not modelled, and a failing write is a flag.
  - Foreign keys are enforced only for `saved_items.learn_item_id`.
- Prefetch's call to `/api/generate` is a parameter (`Generated`): it
  threw, or it answered a status and an optional body. `NEXT_PUBLIC_SITE_URL`
  and cookie forwarding are left out.
- The Upstash/Redis branch of the rate limiter is a foreign
  sliding-window library. `withTimeout`, `uuidv4`, `crypto.randomUUID`
  and the clock are parameters or left out.
- `calculateExpiresAt` and `getTopicIconName` are not defined in the
  source files this model covers. The expiry is a parameter and the icon
  lookup is left out.
- The `/api/user` and `/api/auth/login` routes are single foreign calls.
  Rendering, loading flags, toasts, router navigation, timers and the
  presentational components are left out.
- Unicode:
  - `toLowerCase` is modelled for ASCII letters only.
  - `trim` and `\s` use JavaScript's whitespace set.
  - zod's URL and UUID checks are approximated by `IsUrl` (a letter, then
    letters, digits, `+`, `-` or `.`, then ":", so `mailto:x` passes) and
    `IsUuid` (8-4-4-4-12 hex digits).
- RestWithout: a string is split into one entry per code point. JavaScript
  splits it per UTF-16 code unit, which gives a lone surrogate for each
  half of a code point above U+FFFF; Dafny strings cannot hold those.
- The `item_type` column's database default is not in the source. It is
  the parameter `typeDefault` of `SavedRoute.Post`.
- UpsertPrefsRow: the `user_prefs` column defaults are not in the source
  either. A column a new user's first POST does not send reads as null,
  which is what `PrefsRoute.PostThenGet` states.
- InvalidData: zod's `details: error.errors`, the list of issues sent with
  every "Invalid request data" 400, is not carried. The model's reply holds
  the `error` text only.
- The `->>` text of a stored array or object is not compared with the
  session id. `EventsRoute.StoredText` gives nothing for those.
- Rows with equal `created_at` may come in any order in the source. The
  model fixes one order.
- SettingsPage.LoadPrefs: a `preferred_topics` array holding non-strings
  is treated as a failed load. The page would file those values among the
  custom topics.
- The saved page's lesson-plan rows would need an embedded `lesson_plan`,
  which the GET never sends. `SavedPage.OpenTarget` therefore opens
  nothing for them.
- HomePage.HandleTeachMe: the POST to `/api/learn` and the navigation
  after it are not performed by the handler. What each handler sends is
  stated apart, by `HomePage.TopicSelectSave`, `HomePage.TeachMeSave` and
  `HomePage.ClarifySave`; the reply of that POST is not modelled.
- The POST handlers of `/api/saved` and `/api/lesson-plan` do not run
  `CreateSavedItemSchema` or `CreateLessonPlanSchema`. Neither does the
  model. The schemas are modelled on their own.
- LearnRoute.Get: a `limit` that `parseInt` reads as NaN is passed on as
  `.limit(NaN)`. The model takes the database's answer to that to be an
  error, so the handler answers 500.

## Findings

| source | as written | input that shows it | evidently intended | confidence | as-written member | corrected member |
|---|---|---|---|---|---|---|
| frontend/app/saved/page.tsx:37-41 | the delete button sends `item_type` and `item_id`, but the DELETE handler (frontend/app/api/saved/route.ts:80-91) reads only `learn_item_id`, so it answers 400 and keeps the row; the page drops it from its list anyway, with every row sharing its `item_id` and `item_type` | any listed saved row, e.g. a learning bookmark whose `item_id` is null | delete the clicked bookmark by a key the handler reads, and drop exactly the rows the handler deletes | not executed | SavedPage.HandleDeleteAsWritten, SavedPage.PageDeleteLeavesRow | SavedRoute.DeleteKeyOf, SavedRoute.DeleteKeyRows, SavedPage.HandleDelete, SavedPage.HandleDeleteAgrees |
