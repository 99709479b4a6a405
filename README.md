# Farmers AI Assistant: diagnosis routes, diagnosis repository and translation lookup

This project models in Dafny the server side of the Farmers AI Assistant, a web app. A farmer
photographs a plant, picks a crop, and gets back a disease with organic and chemical
treatments. The app stores each diagnosis and can list recent ones.

The model covers:

- **The two diagnose routes** (`POST /api/diagnose/offline` and `POST /api/diagnose/online`).
  Neither route looks at the image. The route first checks the body: a missing or empty
  image, or a missing or zero crop id, gives 400. It then reads at most five diseases of the
  crop; none gives 404. It picks one with `floor(r * n)` from a random draw and draws a
  confidence: [0.5, 0.8) offline, [0.6, 0.95) online. The disease's `;`-separated treatment
  columns become trimmed lists, or a fixed two-item list when a column is null or empty. One
  row goes into `diagnoses`: the image cut to 255 characters and `is_offline` set by the
  route. Only then is the result returned. Every other failure is a 500, and nothing is
  stored on any error. The shared steps are in `DiagnosePipeline`; `OfflineRoute.Post` and
  `OnlineRoute.Post` state each route's contract.
- **The diagnosis repository** (`GET` and `POST /api/diagnoses`). GET inner-joins the
  diagnoses with diseases and crops, orders them newest first and keeps twenty. Each row
  becomes a record with the disease and crop nested in it. POST stores a result the caller
  already holds, with the route's defaults, and returns the stored row. The lemmas show the
  listing is newest first and at most twenty records long. They also show it draws only on
  existing diseases and crops, leaves out only older rows, and lists a newly saved record
  first.
- **The translation lookup** (`LanguageProvider`). The model holds the eight translation
  tables as they are in the source. `t(key)` gives the table entry, or the key when the
  entry is missing or empty. The provider starts in English and adopts a stored language
  only if it names one of the eight tables. It writes the current language back to local
  storage after every change.
- **The record shapes** of `lib/types.ts`, as datatypes. Nullable columns become `Option`.

Modelling choices:

- Each `Math.random()` call becomes a `real` parameter in [0, 1). A route takes two: `pick`
  selects the disease and `draw` gives the confidence.
- The store is a class, `Store.Database`. It holds the read-only `crops` and `diseases`
  tables and an append-only `diagnoses` table. New rows get the next id and a creation time
  later than every earlier row's. So "newest first" is the reverse of table order.
- A request body is `None` when it is not valid JSON or is JSON `null`. In those two cases
  `request.json()` or the destructuring of its value throws inside the handler's `try`, which
  gives 500. Any other body that is not an object, such as an array or a number, has no
  fields. It is modelled as a body whose fields are all absent (`DiagnoseBody(None, None)`,
  `SaveBody(None, None)`) and is answered 400.
- A store call that fails is a boolean parameter (`selectFails`, `insertFails`). A failed
  call appends nothing.
- The candidate query has `LIMIT 5` but no `ORDER BY`. The model takes the first five
  matching rows in table order.
- The "online" route calls no vision service. Its comment says it "would normally use the
  Gemini API", but it runs the same random simulation as the offline route; only the
  confidence range and the `is_offline` flag differ.
- An INSERT failure in either diagnose route reaches the handler's `catch`. The route answers
  500 and returns no result.
- `POST /api/diagnoses` does not look the disease up. It stores the `id` and `crop_id` of
  whatever disease object the body carries, whether or not the `diseases` table holds it.
- `POST /api/diagnoses` reads `notes` and `isOffline` from inside `result`, not from the top
  level of the body. A result returned by a diagnose route has no `isOffline`, so saving it
  stores `is_offline = false` (`DiagnosesRoute.SaveRow`).

## Model

| member | source | states |
|---|---|---|
| `Types.ParseMode` | lib/types.ts:51 | exactly the strings "online" and "offline" name an app mode, each the mode that prints as it |
| `Strings.Split` | app/api/diagnose/offline/route.ts:37 | `split(";")` gives one piece per separator plus one, and no piece contains the separator |
| `Strings.JoinSplit` | app/api/diagnose/offline/route.ts:37 | joining the pieces with the separator gives back the original string |
| `Strings.SplitJoin` | app/api/diagnose/offline/route.ts:37 | splitting separator-free pieces joined by the separator gives back the same pieces, so splitting is one-to-one |
| `Strings.Trim` | app/api/diagnose/offline/route.ts:37 | `trim()` gives a string with no white space at either end, empty exactly when the input is all white space, using only the input's characters |
| `Strings.TrimFrames` | app/api/diagnose/offline/route.ts:37 | the trimmed string is the slice of the input after its leading spaces, and every character outside that slice is white space, so trimming removes nothing else |
| `Strings.TrimIdempotent` | app/api/diagnose/offline/route.ts:37 | trimming twice is the same as trimming once |
| `Strings.Prefix` | app/api/diagnose/offline/route.ts:65 | `substring(0, n)` is the prefix of length `min(|s|, n)` |
| `Analysis.DiseasesOf` | app/api/diagnose/offline/route.ts:20-24 | `WHERE crop_id = cropId` keeps exactly the diseases of that crop |
| `Analysis.Candidates` | app/api/diagnose/offline/route.ts:20-24 | at most five diseases, all of the requested crop; all of them when there are five or fewer; none exactly when the crop has no disease |
| `Analysis.PickIndex` | app/api/diagnose/offline/route.ts:32 | `floor(r * n)` for `0 <= r < 1` is a valid index below `n` |
| `Analysis.PickIndexReaches` | app/api/diagnose/online/route.ts:31 | every candidate can be selected: the draw `k / n` picks index `k` |
| `Analysis.OfflineConfidence` | app/api/diagnose/offline/route.ts:33 | the offline confidence lies in [0.5, 0.8) and determines the draw |
| `Analysis.OnlineConfidence` | app/api/diagnose/online/route.ts:34 | the online confidence lies in [0.6, 0.95) and determines the draw |
| `Analysis.ParseTreatments` | app/api/diagnose/offline/route.ts:36-42 | a null or empty column gives the default list; otherwise one trimmed entry per `;`-separated piece, in order, with empty pieces kept and no entry containing `;` |
| `Analysis.ParseTwoPieces` | app/api/diagnose/online/route.ts:37-43 | a column with one `;` gives exactly its two trimmed pieces |
| `Analysis.TreatmentsExample` | app/api/diagnose/offline/route.ts:36-38 | "Apply neem oil; Use compost tea" gives ["Apply neem oil", "Use compost tea"] |
| `Analysis.Truncate255` | app/api/diagnose/online/route.ts:66 | the stored image is the first `min(|image|, 255)` characters of the image |
| `Store.Database.Insert` | app/api/diagnoses/route.ts:57-74 | appends exactly one row with a fresh, larger id and a later creation time, returns it as stored, and keeps the table chronological |
| `DiagnosePipeline.HasRequiredFields` | app/api/diagnose/offline/route.ts:10 | the truthiness test on `image` and `cropId` rejects exactly the falsy field values: an absent or empty image, an absent or zero crop id |
| `DiagnosePipeline.DiagnosisRow` | app/api/diagnose/offline/route.ts:55-69 | the INSERT values: the requested crop, the chosen disease's id, the first `min(n, 255)` characters of the image, the confidence, no notes, and `is_offline` true exactly for the offline route |
| `DiagnosePipeline.Diagnose` | app/api/diagnose/offline/route.ts:6-76 | the full decision sequence: 500 for an unreadable body, 400 for missing fields, 500 if the query fails, 404 for no candidates, 500 if the insert fails; otherwise the picked candidate, its confidence and treatments, and exactly one appended row recording them; nothing stored on any error |
| `OfflineRoute.Post` | app/api/diagnose/offline/route.ts:6-76 | 500 for a body that is not valid JSON or is `null`, 400 for missing fields, 500 if the query fails, 404 for a crop without diseases, 500 if the INSERT fails, and every error leaves the table unchanged; with the required fields, a crop that has diseases and a working store the answer is a result; a result is the candidate at index `floor(pick * n)`, with confidence exactly `0.5 + 0.3 * draw` (so in [0.5, 0.8)) and the disease's treatments, and is returned after one row is appended with that crop, disease, confidence, truncated image and `is_offline = true` |
| `OnlineRoute.Post` | app/api/diagnose/online/route.ts:6-77 | as offline, with confidence exactly `0.6 + 0.35 * draw` (so in [0.6, 0.95)) and `is_offline = false` |
| `DiagnosesRoute.FindDisease` | app/api/diagnoses/route.ts:13 | the join finds a disease with the row's `disease_id`, or none exists (a null id matches nothing) |
| `DiagnosesRoute.FindCrop` | app/api/diagnoses/route.ts:14 | the join finds a crop with the row's `crop_id`, or none exists |
| `DiagnosesRoute.JoinRow` | app/api/diagnoses/route.ts:13-14 | a row joins unless no disease or no crop has its id; a joined row keeps the row and carries the name and symptoms of a disease with its `disease_id` and the name of a crop with its `crop_id` |
| `DiagnosesRoute.Joined` | app/api/diagnoses/route.ts:6-14 | the inner join keeps exactly the rows whose disease and crop both exist, each with its joined names |
| `DiagnosesRoute.JoinedAscending` | app/api/diagnoses/route.ts:12-15 | the join keeps the table's creation order |
| `DiagnosesRoute.NewestFirst` | app/api/diagnoses/route.ts:15-16 | `ORDER BY created_at DESC LIMIT 20` gives the last `min(n, 20)` rows in reverse |
| `DiagnosesRoute.ToRecord` | app/api/diagnoses/route.ts:20-39 | the nested `disease.id` and `crop.id` equal the row's `disease_id` and `crop_id`, and the row and joined names can be read back from the record, so the reshaping loses nothing |
| `DiagnosesRoute.Format` | app/api/diagnoses/route.ts:20 | `map` keeps length and order |
| `DiagnosesRoute.ListingNewestFirst` | app/api/diagnoses/route.ts:15-16 | the listing has at most 20 records in strictly decreasing creation time |
| `DiagnosesRoute.ListingFromTables` | app/api/diagnoses/route.ts:6-14 | each listed record describes a stored row, with the name and symptoms of an existing disease and the name of an existing crop |
| `DiagnosesRoute.ListingKeepsNewest` | app/api/diagnoses/route.ts:15-16 | a row that joins is listed, unless 20 records are listed and it is older than all of them |
| `DiagnosesRoute.SavedRecordListedFirst` | app/api/diagnoses/route.ts:12-39 | a row appended last whose disease and crop exist heads the next listing, with its id, crop, disease, confidence and offline flag |
| `DiagnosesRoute.Get` | app/api/diagnoses/route.ts:4-46 | 500 "Failed to fetch diagnoses" when the query fails; otherwise at most 20 records, newest first, exactly the formatted join |
| `DiagnosesRoute.HasDisease` | app/api/diagnoses/route.ts:52 | the truthiness test on `result` and `result.disease` rejects exactly a body without `result` or a `result` without `disease` |
| `DiagnosesRoute.SaveRow` | app/api/diagnoses/route.ts:66-71 | the row takes the result's crop, disease and confidence; the image is the first 255 characters of `imageUrl`, or null when that is absent or empty; empty or absent notes become null; the row is offline only when `isOffline` is true |
| `DiagnosesRoute.Post` | app/api/diagnoses/route.ts:48-81 | 400 "Missing required fields" without `result.disease` and 500 "Failed to save diagnosis" on failure, both with nothing stored; otherwise one row is appended and that same row is returned |
| `DiagnosesRoute.SaveThenList` | app/api/diagnoses/route.ts:48-76 | a save followed by a listing shows the saved record first, with the same disease, crop, confidence and offline flag |
| `Localization.ParseLanguage` | components/language-provider.tsx:221-222 | a string names a language exactly when it is one of the eight table keys, and then names the language whose name it is |
| `Localization.LanguageNamesMatch` | components/language-provider.tsx:6 | each of the eight `Language` values is a key of `translations` and is named by it |
| `Localization.TablesComplete` | components/language-provider.tsx:14-207 | every language table defines exactly the 22 keys, none of them as the empty string |
| `Localization.Lookup` | components/language-provider.tsx:231-233 | the table lookup with the key as fallback shows the key or the table's entry for it, the entry whenever it is defined and non-empty, and never an empty text for a non-empty key |
| `Localization.Translate` | components/language-provider.tsx:231-233 | `t` in a given language gives the key itself or that language's non-empty entry for it |
| `Localization.LanguageProvider.T` | components/language-provider.tsx:231-233 | the provider's `t` gives the key itself or the current language's non-empty entry for it |
| `Localization.TranslateKnownKey` | components/language-provider.tsx:231-233 | for a key of the tables, `t` gives that language's non-empty entry in every language |
| `Localization.TranslateUnknownKey` | components/language-provider.tsx:231-233 | for any other key, `t` gives back the key itself |
| `Localization.DefaultContextUntranslated` | components/language-provider.tsx:209-213 | outside a provider `t` is the identity on every key, so it shows the raw key ("appName") where the English table has "Farmers AI Assistant" |
| `Localization.Restored` | components/language-provider.tsx:220-225 | the restored language is the stored one when it is set and names a table, English otherwise |
| `Localization.LanguageProvider.constructor` | components/language-provider.tsx:217-229 | a mounted provider starts in English, adopts a valid stored language, and ends with the stored item naming the current language |
| `Localization.LanguageProvider.SetLanguage` | components/language-provider.tsx:227-229 | after a change the language is the new one and the stored item names it |

## Left out

- Page and view components, the camera, the crop selector, the result view and the crops
  route (`GET /api/crops` only returns the database's `ORDER BY name ASC`). These are UI and
  browser APIs with no server-side logic.
- The SQL client and query text, which are not part of this model. The tables are in-memory
  sequences, and a failed store call is a generic failure flag.
- Which five diseases the database returns: the query has no `ORDER BY`, and the model takes
  the first five in table order.
- `Math.random` and IEEE-754 arithmetic. Draws and confidences are exact reals, so rounding
  at the top of a range is not modelled.
- JSON parsing and serialisation. Bodies are already-typed records, so a field of the wrong
  JSON type (a numeric `image`, a string `cropId`, `NaN`) is not modelled.
- `Analysis.Truncate255`: counts Unicode scalar values, while JavaScript's `substring` counts
  UTF-16 code units. The two differ only for characters outside the Basic Multilingual
  Plane, which data URIs do not contain.
- `DiagnosesRoute.SaveRow`: `result.confidence` is taken as a number. An absent confidence,
  whose handling depends on the SQL client, is not modelled.
- Lookups of names inherited by every JavaScript object, such as `t("constructor")`. These
  return a non-string from the prototype chain.
- The database's own assignment of `user_id` (always null here) and of ids and timestamps.
  These are taken as the next value of a counter and a clock.
- Logging with `console.error`.
