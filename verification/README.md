# Business insights demo: a Dafny model

This project models the logic of a small "business insights" web application.
A form collects a business name and a location. An Express backend fabricates
a rating, a review count and an SEO headline. The headline comes from a fixed
table of ten templates with `{name}` and `{location}` placeholders. A React
hook keeps the last result and lets the user regenerate just the headline.

The model covers four parts:

- **Backend** (`server.dfy`, with `random.dfy` and `strings.dfy`). This is the
  template table and the two chained `String.prototype.replace` calls. The
  replace follows ECMAScript semantics: only the first occurrence is replaced,
  and `$` patterns are expanded as in GetSubstitution (section 22.1.3.19.1 of
  ECMAScript 2024). It also covers the three `Math.random()` draws and the
  guards of `POST /business-data` and `GET /regenerate-headline`. A random
  draw is the exact fraction `num / den` in [0, 1). A rating is an integer
  number of tenths.
- **Client view state** (`view_state.dfy`). This is the hook's four pieces of
  state. Each asynchronous operation is split into a start step and a
  completion step. The completion step takes the settled request (a
  delivered body, a non-ok response, or a thrown value) as a parameter.
  `Step`/`Run` replay a sequence of such events, one at a time.
- **Form** (`form.dfy`). This is the trim-based validator, the submit gate and
  the field-edit handler. `Strings.Trim` strips exactly JavaScript's
  WhiteSpace and LineTerminator characters.
- **Card helpers** (`card.dfy`). These are the rating colour tier, the
  five-star row and the review label.

`consistency.dfy` relates the parts. Whatever the form submits passes the
backend's guards. Whitespace-only input is refused by the form but accepted
by the backend. Served data always shows as 3–5 stars with a plural review
label.

Each template is stored as its three fixed pieces: the text before `{name}`,
the text between the placeholders, and the text after `{location}`.
`Template.Text()` rebuilds the template string from those pieces.

## Model

| member | source | states |
|---|---|---|
| Strings.IndexOf | server.js:30 | The search `replace` performs: the result is an occurrence with none before it, and it is absent exactly when the pattern occurs nowhere. |
| Strings.IndexOfFrom | server.js:30 | The search from a start index finds the first occurrence at or after it, or reports that none exists. |
| Strings.IndexOfFirst | server.js:30 | The first occurrence is found wherever it lies. |
| Strings.Substitution | server.js:30 | GetSubstitution for a string pattern; a replacement without `$` is inserted verbatim. |
| Strings.ReplaceFirst | server.js:30 | A string with no occurrence of the pattern comes back unchanged. |
| Strings.ReplaceFirstAt | server.js:30 | Replacing in `a + pat + b` with no earlier occurrence and a `$`-free replacement gives `a + replacement + b`: only the first occurrence changes. |
| Strings.ReplaceFirstAtSub | server.js:30 | Replacing in `a + pat + b` with no earlier occurrence inserts the replacement's substitution, computed from `a` and `b`, in place of `pat`. |
| Strings.ReplaceFirstInside | server.js:30 | When the text before `x` cannot start the pattern, `x` contains it and the replacement is `$`-free, replacing in `a + x + rest` rewrites only inside `x`. |
| Strings.NoEarlyOccurrence | server.js:30 | A placeholder starting with `{` cannot occur inside text free of `{`. |
| Strings.TrimStart | src/components/BusinessForm.tsx:22 | The result is a suffix; every dropped character is white space; the result does not start with white space. |
| Strings.TrimEnd | src/components/BusinessForm.tsx:26 | The result is a prefix; every dropped character is white space; the result does not end with white space. |
| Strings.TrimComposes | src/components/BusinessForm.tsx:22-28 | `trim()` equals trimming the start and then the end, so `TrimEnd` and `TrimStart` together give an independent definition of it. |
| Strings.Trim | src/components/BusinessForm.tsx:22-28 | `trim()` is the slice of the input left after a white-space prefix and a white-space suffix are cut off. It is empty exactly when every character is white space; otherwise it starts and ends with a non-white-space character, so the cut-off parts are the whole leading and trailing white space. |
| Random.Scale | server.js:28-29 | `Math.floor(r * n)` is the integer part of `n * num / den`, and it is below `n`. |
| Random.RatingTenths | server.js:27 | `toFixed(1)` picks the nearest tenth (ties upward), and the rating lies in [3.5, 5.0]. |
| Random.RatingRange | server.js:27 | A nearest tenth of a value in [3.5, 5.0) lies in [35, 50] tenths. |
| Random.ReviewCount | server.js:28 | The review count is 50 plus `floor(r * 500)` and lies in [50, 549]. |
| Random.RatingEndsReached | server.js:27 | Both 3.5 and 5.0 occur, for draws 0 and 1023/1024, which `Math.random` can return. |
| Random.ReviewEndsReached | server.js:28 | Both 50 and 549 occur, for draws 0 and 1023/1024, so the commented 550 is never produced. |
| Server.OpenBraces | server.js:12-23 | In a well-formed template a `{` stands only at the start of one of the two placeholders. |
| Server.NameSlotOnce | server.js:12-23 | A well-formed template holds `{name}` exactly once, right after its leading text. |
| Server.LocationSlotOnce | server.js:12-23 | A well-formed template holds `{location}` exactly once, right after the text between the placeholders. |
| Server.PlaceholdersOnce | server.js:12-23 | A well-formed template holds `{name}` exactly once and `{location}` exactly once, `{name}` first. |
| Server.TableWellFormed | server.js:12-23 | The table has ten entries and none has a stray `{` outside its placeholders. |
| Server.TemplateTableShape | server.js:12-23 | Each of the ten templates holds `{name}` once and `{location}` once, `{name}` first. |
| Server.Fill | server.js:30 | The two chained replaces leave a template with neither placeholder unchanged. |
| Server.NameReplaced | server.js:30 | The first replace puts a `$`-free name where the template's `{name}` stood. |
| Server.FillShape | server.js:30 | For a name without `{` and inputs without `$`, the headline is the template's text with the name and location in place of the placeholders. |
| Server.LocationSlotInName | server.js:30 | For any well-formed template, a `$`-free location and any `$`-free name that contains `{location}`, the second replace rewrites the first `{location}` inside the inserted name, and the template's own `{location}` stays in the headline. |
| Server.DollarPatternInName | server.js:30 | A name of `$&`, with a `$`-free location, makes the headline show the literal `{name}`. |
| Server.TemplateIndex | server.js:29 | `floor(r * 10)` is always a valid table index. |
| Server.EveryTemplateSelectable | server.js:29 | Each template index is selected by a draw of the form k/1024, a value `Math.random` can return. |
| Server.Headline | server.js:29-30 | The headline a draw produces is one of the filled-in templates. |
| Server.HeadlineShape | server.js:29-30 | For a name without `{` and inputs without `$`, the headline a draw produces is its template with the name and location in place of the placeholders. |
| Server.HeadlinesArePossible | server.js:29-30 | Every produced headline is a filled-in template, and every filled-in template is produced by some draw. |
| Server.GenerateBusinessData | server.js:26-38 | The first draw fixes the rating, the second the review count, and the third picks the template. The rating is in [35, 50] tenths and the reviews in [50, 549]. The headline is one of the filled-in templates. The timestamp is the current time. |
| Server.GeneratedHeadlineHoldsInputs | server.js:30 | For ordinary inputs the headline contains the name and, after it, the location, each where its placeholder stood. |
| Server.Truthy | server.js:44 | The falsy field values are exactly a missing field and the empty string. |
| Server.BusinessDataEndpoint | server.js:41-55 | 400 with the fixed message exactly when a field is missing or empty; otherwise generated data within the ranges. |
| Server.RegenerateHeadlineEndpoint | server.js:58-77 | Same guard and message. Otherwise a headline from the same set, stamped with the current time. |
| Server.EndpointsShareHeadlines | server.js:69-70 | With the same template draw both endpoints return the same headline, and each can return every headline of the set. |
| Server.WhiteSpaceAccepted | server.js:44 | Any non-empty fields made only of white space are truthy, so both endpoints accept them. |
| ViewState.CaughtMessage | src/hooks/useBusinessData.ts:44 | A caught `Error` gives its own message; any other thrown value gives the fallback. |
| ViewState.FailureMessage | src/hooks/useBusinessData.ts:37-44 | A non-ok response yields its fixed message. A thrown `Error` yields its own message. Any other thrown value yields the fallback. |
| ViewState.FetchStart | src/hooks/useBusinessData.ts:24-26 | Loading starts and the error clears; data and the regenerating flag are untouched. |
| ViewState.FetchEnd | src/hooks/useBusinessData.ts:37-47 | Loading ends in every outcome. Success replaces the data wholesale. Failure keeps the data and sets the error: `Failed to fetch business data` for a non-ok response, the error's own message for a thrown `Error`, and `An error occurred` for any other thrown value. |
| ViewState.PatchHeadline | src/hooks/useBusinessData.ts:66 | Absent data stays absent. Present data changes only its headline; rating, reviews and lastUpdated are kept. |
| ViewState.RegenerateStart | src/hooks/useBusinessData.ts:50-54 | Without data nothing changes. Otherwise regenerating starts and the error clears. Data and loading are never touched. |
| ViewState.RegenerateEnd | src/hooks/useBusinessData.ts:61-71 | Regenerating ends in every outcome and loading is untouched. Success patches only the headline and drops `generatedAt`. Failure keeps the data and sets the error. A thrown `Error` gives its own message. A non-ok response or a non-Error throw gives `Failed to regenerate headline`. |
| ViewState.Step | src/hooks/useBusinessData.ts:24-72 | A request settles only while its flag is up; a settle event at any other time changes nothing. |
| ViewState.StepKeepsInv | src/hooks/useBusinessData.ts:24-72 | No step makes the flag `regenerating` true without data, and no step loses data. |
| ViewState.RunKeepsInv | src/hooks/useBusinessData.ts:24-72 | Along any sequence of steps the invariant holds and data once present stays present. |
| ViewState.InitialInv | src/hooks/useBusinessData.ts:16-19 | The initial state satisfies the invariant, and so does every state reached from it. |
| ViewState.FetchThenRegenerate | src/hooks/useBusinessData.ts:24-72 | A successful fetch then a successful regenerate leaves the fetched data with the new headline, no error, and both flags down. |
| Form.KeyCount | src/components/BusinessForm.tsx:31 | `Object.keys(errors).length` is at most 2. It is 0 exactly when neither field has an error, and 2 exactly when both do. |
| Form.ValidateForm | src/components/BusinessForm.tsx:19-32 | Each field's error entry, with its fixed message, is present exactly when that field is blank after trimming. The verdict is true exactly when neither field is blank. |
| Form.VerdictMatchesErrors | src/components/BusinessForm.tsx:30-31 | The verdict is true exactly when the error map is empty. |
| Form.HandleSubmit | src/components/BusinessForm.tsx:34-39 | The form data, untrimmed, is submitted exactly when validation passes; the stored errors are the validator's. |
| Form.HandleInputChange | src/components/BusinessForm.tsx:41-46 | The edited field takes the new value and shows no error afterwards. The other field's value and error are unchanged. Errors are untouched when the edited field had none. |
| Form.InitialFormRefused | src/components/BusinessForm.tsx:13-17 | The form as first rendered shows no error. Submitting it unedited passes nothing on and shows both required-field errors. |
| Form.SubmittedFormIsTrimNonEmpty | src/components/BusinessForm.tsx:34-39 | Submitted fields are non-blank after trimming, and so non-empty. |
| Card.RatingTier | src/components/BusinessCard.tsx:30-34 | The tier's rank counts the thresholds 4.0 and 4.5 that the rating reaches. |
| Card.RatingColor | src/components/BusinessCard.tsx:30-34 | At least 4.5 is green, [4.0, 4.5) yellow, below 4.0 orange, each with its CSS classes. |
| Card.RatingTierMonotone | src/components/BusinessCard.tsx:30-34 | A higher rating never gets a lower tier. |
| Card.BackendRatingsReachEveryTier | src/components/BusinessCard.tsx:30-34 | Each tier occurs for a rating the backend can produce. |
| Card.FloorRating | src/components/BusinessCard.tsx:76 | `Math.floor(rating)` is the whole number of the rating. |
| Card.Stars | src/components/BusinessCard.tsx:72-77 | Exactly five stars, star `i` filled when the rating is at least `i + 1`. |
| Card.CountPrefix | src/components/BusinessCard.tsx:72-77 | A row filled on its first `k` places has `k` filled stars. |
| Card.FilledStars | src/components/BusinessCard.tsx:72-77 | The filled stars come first, and their number is `floor(rating)` clamped to [0, 5]. |
| Card.BackendRatingStars | src/components/BusinessCard.tsx:72-77 | A backend rating fills 3, 4 or 5 stars, and 5 exactly for a rating of 5.0. |
| Card.ReviewsText | src/components/BusinessCard.tsx:36-39 | The label is `1 review` exactly for a count of 1, and the formatted count followed by ` reviews` otherwise. |
| Consistency.SubmittedFormAccepted | server.js:44-48 | Whatever the form submits passes the guards of both endpoints. |
| Consistency.WhiteSpaceGap | src/components/BusinessForm.tsx:22 | Any non-empty white-space-only field, as name or as location, is refused by the form but accepted by both endpoints; an empty name is refused by all three. |
| Consistency.ServedDataDisplay | src/components/BusinessCard.tsx:68-97 | Data served by the backend and stored by a fetch shows 3–5 stars, a plural review label, and a headline from the template set. |

## Left out

- Express setup, CORS, JSON parsing, `app.listen` and the `/health` route (server.js:1-9, server.js:79-86): HTTP plumbing with no logic to state.
- The 800 ms and 600 ms `setTimeout` delays: timing only; each handler is modelled as its immediate result.
- `new Date().toISOString()` and `formatDate`: timestamps are opaque strings passed in as `now`, and date formatting is not modelled.
- `toLocaleString` digit grouping: it is the parameter `format` of `Card.ReviewsText`.
- `fetch`, `encodeURIComponent`, the `VITE_API_URL` base URL and `response.json()`: network calls. Their outcomes are the `Completion` parameter of the completion steps.
- Overlapping requests and last-response-wins races: steps are applied one at a time. Because the submit and regenerate buttons are disabled while their request runs, at most one request of each kind is outstanding, and `ViewState.Step` ignores a settle event while its flag is down.
- `Math.random()` and the binary64 arithmetic of `r * 1.5 + 3.5`, `toFixed` and `parseFloat`: a draw is an exact fraction, and the rating is exact tenths.
- Random.RatingTenths: binary64 rounding of `r * 1.5 + 3.5` before `toFixed` is not modelled, because draws are exact fractions.
- Server.BusinessDataEndpoint: request fields that are not strings (numbers, booleans, objects in the JSON body, or arrays from repeated query keys) are not modelled; a field is missing or a string.
- Server.FillShape: stated only for names without `{` and inputs without `$`. Two of the other cases are shown: a `$`-free name holding `{location}` with a `$`-free location (`Server.LocationSlotInName`), and the name `$&` with a `$`-free location (`Server.DollarPatternInName`). The remaining inputs have no shape lemma: a name with `{` but no `{location}` (such as `{Cafe}`), a name with any other `$` pattern (such as `Joe$'`), and a location containing `$`. The headline for them is still given by `Server.Fill`, the two chained first-occurrence replaces with full `$` substitution.
- ViewState.FetchEnd: a delivered body is taken to be a `BusinessData`; the hook stores whatever JSON arrives without checking it.
- JavaScript strings are sequences of UTF-16 code units; here a string is a sequence of Unicode scalar values, so strings holding lone surrogates cannot be represented. On every string that can be represented, `replace` and `trim` return the same strings. `indexOf` positions count scalar values, not code units.
- All JSX, styling and theming, including `App.tsx`, `Header.tsx`, `BackgroundEffects.tsx` and `ThemeToggle.tsx`: rendering with no logic beyond composition.
