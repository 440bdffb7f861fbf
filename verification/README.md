# PhonoCoach rules in Dafny

PhonoCoach is a browser app for practising French pronunciation. The user
picks a sound (the nasal vowels AN/ON/IN, EU/ŒU, the silent -ENT, the endings
-EUX/-EUR) and records themselves. A scoring provider, reached through a proxy,
returns a score. The app keeps the best and last score per sound, and after a
test it suggests sounds to work on. Almost all of `app.js` is DOM templating
and browser glue. This project models the rules inside it:

- **Catalogue** (`catalogue.dfy`): the six sounds of `SOUNDS`, in catalogue
  order, and `SOUNDS.find` by exact identifier.
- **Percent** (`percent.dfy`): `scoreToPct`. It handles null/undefined,
  non-finite values, `Math.round` with ties upwards, and clamping to [0, 100].
- **Scores** (`scores.dfy`): the score store. `updateScore` is a running
  maximum plus an attempt counter. The `ScoreStore` class holds the map and has
  `UpdateScore`, the dashboard's reset, and lookup.
- **Router** (`router.dfy`): `parseRoute` (strip one `#`, split on `/`, drop
  empty segments, keep three) and the `render` dispatch to six screens, with
  `renderSound`'s home fallback. It also has `currentHash`, the back-button
  rule and the nav-highlight rule of `setActiveNav`.
- **Settings** (`settings.dfy`): `DEFAULTS` and the `loadSettings` merge, with
  `safeJson`'s fallback. The `SettingsStore` class holds the stored item. Its
  handlers are the theme toggle, the save form (with `trim`) and the clear-keys
  button.
- **Provider** (`provider.dfy`): what `scoreWithProvider` decides before any
  network traffic. That is an immediate reply, an error, or the POST it would
  make: the endpoint and the multipart fields. It also covers
  `inferProviderHint`.
- **Suggest** (`suggest.dfy`): `suggestSoundsFromDetails`. Weak tokens come
  from `weakPhonemes`, or else the six lowest-scored phonemes, or else a
  substring scan. Tokens map to sounds, and the result is the catalogue
  filtered and capped at four.
- **Escape** (`escape.dfy`): `escapeHtml` as four sequential `replaceAll`
  passes.
- **Dashboard** (`dashboard.dfy`): the score table rows and their order.
- **Sorting** (`sorting.dfy`): `Array.prototype.sort` with a comparator,
  modelled as a stable insertion sort. **Strings** and **Wrappers** hold
  `startsWith`/`endsWith`/`includes` and `Option`.

`parseRoute` in `app.js` does not percent-decode segments, and
`renderSound` looks the identifier up by exact equality, so the model
compares segments exactly as written. A browser reports `location.hash` with
every character beyond ASCII percent-encoded, so the fragment the app reads
for the AN sound is `#/sound/an-%C9%91%CC%83`. `Router.RenderReportedAnSound`
shows that this renders the home screen. Only the two sounds whose
identifiers are plain ASCII (`ent-muet`, `eux-eur`) open from their hash
(`Router.RenderAsciiSound`).

Two behaviours of the code that the lemmas make explicit:

- Suggestions come in catalogue order, not score order (`Suggest.TwoNasalScores`).
- When the three nasal vowels and a ø/œ token are all weak, the cap of four
  drops `eux-eur` (`Suggest.OeTokenSuggests`).

## Model

| member | source | states |
|---|---|---|
| Catalogue.Find | app.js:697 | finds a sound exactly when some catalogue entry has that identifier, and the sound found is that entry |
| Percent.Round | app.js:522 | `Math.round` gives an integer within half a unit below and strictly less than half a unit above |
| Percent.RoundUnique | app.js:522 | that integer is unique, so ties go upwards |
| Percent.Clamp | app.js:522 | the result lies in [0, 100]; values inside are kept, values below give 0 and values above give 100 |
| Percent.ScoreToPct | app.js:518-523 | no score exactly for null/undefined or a non-finite number; otherwise a percentage in [0, 100], 0 for negatives, 100 above 100, and within half a unit of any input in [0, 100] |
| Scores.Updated | app.js:160-171 | the new `best` is the maximum of the previous best (0 if none) and the new score; `last` is the new score; `attempts` goes up by one; `updatedAt` is the time; every other sound's record is unchanged |
| Scores.MaxOf | app.js:163 | the running maximum is at least every value and equals one of them |
| Scores.ApplyAllSound | app.js:160-171 | after any sequence of updates, a sound's `best` is the maximum of its earlier best and every score given to it, `last` is the latest score, and `attempts` grows by the number of updates; sounds never updated keep their record |
| Scores.FromEmpty | app.js:160-171 | from an empty store, `best` is the largest score ever given (at least 0) and `attempts` is the call count |
| Scores.Example6045 | app.js:160-171 | 60 then 45 for a fresh sound gives best 60, last 45 and two attempts |
| Scores.UpdatedInRange | app.js:160-171 | an update with a percentage keeps every stored best and last in [0, 100] |
| Scores.RecordResultInRange | app.js:849-852 | storing only non-null `scoreToPct` results keeps a store of percentages one, whatever the provider reports; a null result leaves the store unchanged |
| Scores.RecordResult | app.js:849-852 | a null `scoreToPct` result leaves the store unchanged; otherwise the store is exactly the `updateScore` result for that percentage (best the running maximum, last the percentage, one more attempt), so no other sound's record changes |
| Scores.ScoreStore.constructor | app.js:151-156 | nothing stored yet loads as the empty map |
| Scores.ScoreStore.UpdateScore | app.js:160-171 | the store becomes `Updated` of the old one and stays within [0, 100] when given a percentage |
| Scores.ScoreStore.Reset | app.js:690 | removing the item empties the store |
| Scores.ScoreStore.Get | app.js:162 | returns the record exactly when the sound has one |
| Router.Split | app.js:216 | `split("/")` gives at least one piece and no piece contains a slash |
| Router.JoinSplit | app.js:216 | joining the pieces with `/` gives back the text |
| Router.SplitJoin | app.js:216 | slash-free pieces come back from splitting their join |
| Router.NonEmpty | app.js:216 | `filter(Boolean)` keeps only non-empty pieces, all taken from the input |
| Router.Segments | app.js:216 | every segment is non-empty and slash-free |
| Router.SegmentsEmpty | app.js:216 | the empty path has no segments |
| Router.SegmentsWord | app.js:216 | a non-empty slash-free word is a single segment |
| Router.SegmentsAtSlash | app.js:216 | a slash separates the segments on its two sides, so repeated, leading and trailing slashes add nothing |
| Router.StripHash | app.js:215 | one leading `#` is removed if present, otherwise the text is unchanged |
| Router.ParseRoute | app.js:207-219 | three fields, none with a slash; a later field is non-empty only if the earlier ones are; every non-empty field is a segment of the path |
| Router.ParseRouteSegments | app.js:216-218 | the route is the first three segments, with missing ones `""`; later segments are ignored |
| Router.TrailingSlashIgnored | app.js:215-218 | a trailing slash never changes the route |
| Router.ParseRouteHome | app.js:207-219 | `#/` and the empty fragment give three empty fields |
| Router.ParseRouteTwo | app.js:207-219 | `#/x/y` with proper segments gives `(x, y, "")` |
| Router.ParseRouteCategory | app.js:207-219 | `#/category/nasales` gives `("category", "nasales", "")` |
| Router.ParseRouteOneSegment | app.js:207-219 | `#//x/` gives `(x, "", "")`, since empty segments are dropped |
| Router.ParseRouteExtraSlashes | app.js:207-219 | `#//dashboard/` gives `("dashboard", "", "")` |
| Router.ParseRouteDoubleHash | app.js:215 | only one `#` is stripped: `##/x` gives `("#", "x", "")` |
| Router.Dispatch | app.js:532-540 | empty first segment shows home; `dashboard`, `settings` and `test` each show their screen exactly for that segment; a category is shown exactly for `category` with a second segment; a sound page is shown exactly for `sound` with an identifier found in the catalogue (the `renderSound` fallback at app.js:697-698); everything else shows home |
| Router.Render | app.js:525-541 | the screen for a location fragment: a category page always names a non-empty category, and a sound page always shows a catalogue sound |
| Router.BackHidden | app.js:530 | the back button is hidden exactly on `#/` and the empty fragment (stated by `Router.RenderHome`) |
| Router.DispatchIgnores | app.js:532-540 | the third segment never matters, and the second does not matter for the fixed screens |
| Router.RenderHome | app.js:525-532 | an empty fragment and `#/` both show home with the back button hidden, and it is hidden on no other fragment |
| Router.RenderCategory | app.js:525-541 | `#/category/nasales` shows the category screen for `nasales` |
| Router.RenderSound | app.js:696-698 | the unencoded fragment `#/sound/an-ɑ̃` opens the AN sound page; a browser never reports that form (see "## Left out") |
| Router.RenderAsciiSound | app.js:696-698 | `#/sound/eux-eur`, whose identifier is plain ASCII and so reaches the app unencoded, opens that sound's page |
| Router.RenderReportedAnSound | app.js:203-205 | the fragment a browser reports for `#/sound/an-ɑ̃`, percent-encoded, shows home instead of the AN page |
| Router.EncodedSoundIdShowsHome | app.js:697-698 | a percent-encoded identifier matches no sound and falls back to home |
| Router.NavActiveRule | app.js:221-227 | the home button is active only on `#/`; any other button is active on every fragment its target prefixes |
| Router.NavActive | app.js:221-227 | the `setActiveNav` highlight test; `Router.NavActiveRule` states when it holds |
| Router.CurrentHash | app.js:203-205 | an empty location fragment reads as `#/`, any other as itself |
| Settings.LoadSettings | app.js:142-146 | each field is the stored value if stored and the default otherwise; other stored fields are kept; missing or unparseable text (the `safeJson` fallback at app.js:514-516) gives exactly `DEFAULTS` |
| Settings.StoredFields | app.js:144 | `raw ? safeJson(raw, {}) : {}`: a parsed object is used as it is; a missing item or unparseable text gives an object with no fields |
| Settings.ToStored | app.js:147-149 | saving writes every field |
| Settings.LoadAfterSave | app.js:142-149 | loading what was saved gives it back |
| Settings.ClearCredentials | app.js:1391-1396 | exactly the four credential fields become `""`; every other field is unchanged |
| Settings.TrimStart | app.js:1372-1379 | removes exactly the leading white space and keeps a suffix |
| Settings.TrimEnd | app.js:1372-1379 | removes exactly the trailing white space and keeps a prefix |
| Settings.Trim | app.js:1372-1379 | the result neither starts nor ends with white space |
| Settings.TrimIdempotent | app.js:1372-1379 | trimming twice is trimming once |
| Settings.FormModel | app.js:1375 | an empty model input gives the default model, any other is trimmed; the result never starts or ends with white space |
| Settings.FormModelIsTrimmedOr | app.js:1375 | that equals `(value \|\| DEFAULTS.openrouterModel).trim()`, because the default model is already trimmed |
| Settings.ApplyForm | app.js:1369-1379 | theme, voice and provider are taken from the form as given; URL and keys are trimmed; an empty model falls back to the default model; unknown stored fields are kept |
| Settings.SettingsStore.Load | app.js:142-146 | returns `LoadSettings` of the stored item |
| Settings.SettingsStore.Save | app.js:147-149 | the stored item is replaced, and loading gives back what was saved |
| Settings.SettingsStore.ToggleTheme | app.js:233-240 | the next theme is the opposite of the shown one (`dark` when `light` is shown, otherwise `light`); only the stored theme changes |
| Settings.SettingsStore.SaveForm | app.js:1367-1381 | the loaded settings become `ApplyForm` of the old loaded settings |
| Settings.SettingsStore.ClearKeys | app.js:1389-1399 | after the button, the four credentials load as `""` and every other field loads as before |
| Provider.InferProviderHint | app.js:425-430 | `azure` iff the Azure key and region are both set; else `speechace` iff the Speechace key is set; else `auto` |
| Provider.HintAfterClearKeys | app.js:425-430 | after the keys are cleared the hint is `auto` |
| Provider.StripTrailingSlash | app.js:406 | removes a character exactly when the URL ends with `/`, and only that one |
| Provider.ScoreEndpoint | app.js:406 | the endpoint is the proxy URL with at most one trailing `/` removed, then `/score` |
| Provider.EndpointTrailingSlash | app.js:406 | a base URL with or without one trailing slash gives the same endpoint; a second slash is kept |
| Provider.ForwardedKeys | app.js:402-404 | only credentials are forwarded, each with a non-empty value; a credential is forwarded exactly when it is set; at most three are |
| Provider.ForwardedKeysInOrder | app.js:402-404 | the forwarded fields are exactly the set credentials, in the append order `azureKey`, `azureRegion`, `speechaceKey` |
| Provider.ScoreWithProvider | app.js:373-423 | `none` replies with no score and makes no request; `proxy` without a URL is an error before any request; a request is made exactly for `proxy` with a URL, posting to the endpoint the mode (default `practice`), reference text, sound id, provider hint and audio, then the set credentials; any other provider is an error |
| Provider.DefaultsMakeNoRequest | app.js:373-384 | with nothing stored, scoring makes no request and gives no score |
| Suggest.FiniteEntries | app.js:1221-1223 | an entry is kept exactly when its value is finite, and nothing else is kept |
| Suggest.FiniteEntriesInOrder | app.js:1221-1223 | the kept entries are the input filtered by finiteness, in input order |
| Suggest.ByScore | app.js:1224 | the comparator `(a, b) => a.v - b.v`: `a` may precede `b` when its score is not higher; `Suggest.ByScoreTotal` shows it is a total preorder |
| Suggest.LowestKeys | app.js:1220-1227 | the scores path yields at most six keys |
| Suggest.LowestKeysAreLowest | app.js:1220-1227 | the scores path keeps the keys of the first min(6, finite count) entries of the sorted finite entries; each kept key comes from a finite input entry, and every finite input entry that is not kept scores at least as much as each kept one |
| Suggest.FoundIn | app.js:1228-1232 | the scan keeps exactly the candidate tokens that occur in the serialized details |
| Suggest.WeakTokens | app.js:1216-1233 | falsy details give no tokens; a `weakPhonemes` array gives exactly its first six items whatever else is present; otherwise a scores object gives its lowest-scored keys; only without both does the scan keep exactly the candidates found in the serialized details; never more than six |
| Suggest.WeakPhonemesSelect | app.js:1219 | with a `weakPhonemes` array, an id is selected exactly when one of the first six items selects it, whatever `scoresByPhoneme` holds |
| Suggest.ScanSelect | app.js:1228-1232 | without both fields, an id is selected exactly when a candidate token found in the serialized details selects it |
| Suggest.WeakPhonemesSuggest | app.js:1219 | `weakPhonemes: ["ɑ̃", "ɔ̃"]` suggests `an-ɑ̃` then `on-ɔ̃`, whatever the scores hold |
| Suggest.TokenSounds | app.js:1236-1241 | a token selects `an-ɑ̃` iff it contains ɑ̃, `on-ɔ̃` iff ɔ̃, `in-ɛ̃` iff ɛ̃, and `eu-øœ` iff ø or œ, with `eux-eur` always selected together with `eu-øœ`; it selects nothing else, so never `ent-muet` |
| Suggest.SelectedIds | app.js:1235-1241 | the keys of the `Map` after the `forEach`; `Suggest.SelectedIdsSpec` states that an id is among them exactly when some weak token selects it |
| Suggest.SelectedIdsSpec | app.js:1235-1241 | the selected ids are exactly those some weak token selects, and never `ent-muet` |
| Suggest.MarkWeakTokens | app.js:1235-1241 | the `forEach` loop leaves in the map exactly the ids the weak tokens select |
| Suggest.WithIdsMembers | app.js:1243 | the filter keeps exactly the catalogue sounds whose id is selected |
| Suggest.WithIds | app.js:1243 | `SOUNDS.filter(s => map.has(s.id))`: never longer than the list it filters (`Suggest.WithIdsMembers` and `Suggest.WithIdsSubsequence` give its content and order) |
| Suggest.WithIdsSubsequence | app.js:1243 | the filter keeps catalogue order |
| Suggest.SuggestSounds | app.js:1212-1244 | the loop's map ends holding exactly the selected ids; falsy details give `[]`; at most four sounds, each from the catalogue, selected, and not `ent-muet` |
| Suggest.SuggestionsShape | app.js:1212-1244 | the suggestions are a duplicate-free subsequence of the catalogue, at most four, each selected by some weak token, never `ent-muet` |
| Suggest.SuggestionsExact | app.js:1235-1243 | a catalogue sound is suggested exactly when the details are truthy, its id is selected, and fewer than four selected sounds precede it in the catalogue |
| Suggest.CappedFilterAt | app.js:1243 | `filter(...).slice(0, 4)` over a list without repeats keeps the element at index `i` exactly when it is selected and fewer than four selected elements precede it |
| Suggest.Suggestions | app.js:1212-1244 | falsy details give no suggestions, and there are never more than four |
| Suggest.OeTokenSuggests | app.js:1240-1243 | a token with ø or œ selects `eu-øœ` and `eux-eur`; `eu-øœ` is always suggested, and `eux-eur` unless all three nasal vowels are selected too |
| Suggest.TwoNasalScores | app.js:1219-1243 | scores for ɑ̃ and ɔ̃ suggest AN then ON whichever scored lower |
| Sorting.Insert | app.js:643 | insertion adds exactly the one element |
| Sorting.Take | app.js:1219 | `slice(0, n)`: the first `n` elements, or the whole list when it is no longer than `n` |
| Sorting.SortBy | app.js:643 | sorting is a permutation |
| Sorting.SortBySorted | app.js:643 | the result is ordered by any total preorder comparator |
| Sorting.SortByStable | app.js:643 | elements tied under the comparator keep their input order |
| Escape.EscapeChar | app.js:1403 | no replacement holds `<`, `>` or `"`, and other characters are kept |
| Escape.ReplaceAllChar | app.js:1403 | a one-character `replaceAll` replaces each occurrence independently |
| Escape.EscapeHtmlPerChar | app.js:1402-1404 | the four passes equal escaping each character on its own; the output holds no `<`, `>` or `"`; null/undefined gives `""` |
| Escape.EscapeHtml | app.js:1402-1404 | `escapeHtml`: null/undefined gives `""`; `Escape.EscapeHtmlPerChar` gives its meaning for a string |
| Escape.ReplaceAll | app.js:1403 | `replaceAll` leaves a string that does not contain the pattern unchanged |
| Escape.EscapeEachPlain | app.js:1402-1404 | text without `&`, `<`, `>` and `"` is returned unchanged |
| Escape.UnescapeEscape | app.js:1402-1404 | decoding the four entities gives back the original text, so escaping never maps two texts to one |
| Dashboard.RowFor | app.js:638-642 | a scored sound shows its best, last and attempts; an unscored one shows 0, no last score and 0 |
| Dashboard.RowsOf | app.js:637-642 | one row per sound, in catalogue order |
| Dashboard.Table | app.js:637-643 | one row per catalogue sound: the sorted table is a permutation of the catalogue rows |
| Dashboard.ShownFirstTotal | app.js:643 | the comparator is a total preorder |
| Dashboard.ShownFirst | app.js:643 | the sort comparator: `a` goes above `b` when its best score is higher, or equal with at least as many attempts; `Dashboard.ShownFirstTotal` shows it is a total preorder |
| Dashboard.TableShape | app.js:637-643 | the table holds exactly the catalogue's rows, each filled from the store, ordered by best then attempts |
| Dashboard.TableOrder | app.js:643 | a higher best score, or equal best and more attempts, is always shown above |
| Dashboard.TableTiesInCatalogueOrder | app.js:643 | rows with equal best and attempts keep catalogue order |
| Dashboard.EmptyTableInCatalogueOrder | app.js:637-643 | with nothing stored (also after a reset) the table is the catalogue order with no last scores |
| Strings.ContainsIffOccurs | app.js:1236-1240 | `includes` holds exactly when some window spells the needle |
| Strings.Contains | app.js:1236-1240 | `includes`; `Strings.ContainsIffOccurs` states when it holds |
| Strings.StartsWith | app.js:225 | `startsWith`: the text begins with the prefix; `Router.NavActiveRule` uses it for the nav highlight |
| Strings.ContainsChar | app.js:1236-1240 | a one-character `includes` is membership |

## Left out

- Rendering and event wiring are left out. This covers the `innerHTML` templates of every screen, the toasts, and the confirm dialogs (the reset and clear-keys confirmations are taken as accepted). The dashboard's cell text (`Math.round(best)%`, `—`) is also omitted, since stored scores are already whole numbers.
- Audio capture (`startRecorder`, `recordAudio`, `pickBestMimeType`) and text-to-speech voice selection are left out. They are platform APIs.
- The network half of `scoreWithProvider` is left out: the `fetch`, the status and JSON checks of the reply, and the `provider`/`overallScore` it returns. The model stops at the request it would post.
- `callOpenRouter`, `generateCoachFeedback` and `generateTargetedReading` are not modelled. They are network calls with replies of unknown shape. Without an OpenRouter key, `callOpenRouter` returns the error "OpenRouter key manquante." (app.js:437). In the same case, `generateCoachFeedback` and `generateTargetedReading` return their fixed fallback texts (app.js:464 and app.js:493-494).
- `localStorage` and JSON are abstracted. Storage is a map or a stored item, and JSON text is the object it parses to, or "does not parse". Settings fields are strings. JSON values of other types in the settings or score objects are not modelled.
- `Number(...)` coercion is reduced to "finite real or not". Floating-point rounding is replaced by exact reals.
- `Date.now()` is a parameter.
- `details` of other shapes are not modelled. `weakPhonemes` items are strings, `scoresByPhoneme` is a list of entries, and `JSON.stringify(details)` is an opaque string.
- `sw.js`, the service worker's cache-or-network fetch handler, is I/O and is not part of this model.
- Router.Dispatch: compares route segments exactly as `app.js` does, with no percent-decoding and so no decode/encode round trip.
- Router.RenderSound: its input is any fragment text, so it covers `#/sound/an-ɑ̃` unencoded. The model does not capture that a browser's `location.hash` is percent-encoded beyond ASCII. In the app, the four sound pages whose identifiers hold IPA characters therefore fall back to home (`Router.RenderReportedAnSound`).
- Escape.EscapeHtml: takes a string or null/undefined. `String(s ?? "")` also turns numbers and other values into text (for example `res.provider`); that conversion is not modelled.
