# EntertainBot recommendation core and watchlist, in Dafny

EntertainBot asks a chat-completion service for one anime, movie or web-series
recommendation and shows it as a card; users keep a watchlist of titles. This
project models the two parts of the application that hold logic of their own:

* **`streamRecommendations`** (app/actions.ts): the missing-key guard, the
  category prompt and its fallback to the movies prompt, the live reply
  returned as received, and, when the call fails, the keyword-routed choice
  among nine canned records (`generateSingleFallback`) and the `KEY: value`
  text that record is turned into.
* **The watchlist page** (app/watchlist/page.tsx): adding a trimmed title,
  removing by position, searching without regard to case, and the delete
  button that removes `watchlist.indexOf(item)`.

Modules:

- wrappers.dfy, module `Wrappers`: `Option`, `Result`
- text.dfy, module `Text`: `toLowerCase` on ASCII letters, `includes`, `trim` with the ECMAScript white-space set, a splitter used to state line shape
- fallback.dfy, module `Fallback`: the nine literals, the record table, keyword routing, `generateSingleFallback`
- fallback_text.dfy, module `FallbackText`: the catch block's `KEY: value` text and its line structure
- literal_lines.dfy, module `LiteralLines`: the nine literals hold no line break, so their text splits into one line per key
- prompts.dfy, module `Prompts`: the three prompt templates and `categoryPrompts[category] || categoryPrompts.movies`
- stream.dfy, module `Stream`: `streamRecommendations` with the API key and the completion service as parameters
- watchlist.dfy, module `Watchlist`: list operations as functions; the page state as the class `WatchlistPage`

`generateSingleFallback`, the serializer and the prompt choice are pure in the
source (a local variable assigned once per branch, a loop-free run of `+=`) and
are modelled as functions. The watchlist page replaces its state on each
action, so it is a class whose methods reassign a `seq<string>` field; the
browser store is a ghost field, and `Valid()` says the list shown is the list
stored.

Two behaviours of the code are easy to misread:

* Unlike the prompt choice, the selector does not fall back to the movies
  record for an unknown category. Its if/else chain sends every category
  other than "anime" and "movies" to its web-series branch, which reads a
  property of the undefined table entry and throws a `TypeError`
  (app/actions.ts:156 and 176-183). That error leaves `streamRecommendations`
  (`Fallback.GenerateSingleFallback`, `Stream.UnknownCategory`). The prompt,
  by contrast, does fall back to the movies template (app/actions.ts:203).
* The watchlist page's add form appends the trimmed title with no duplicate
  check (app/watchlist/page.tsx:30, `Watchlist.AddTwiceKeepsBoth`). Only the
  chat page's save button checks for an equal title before appending
  (app/chat/[category]/page.tsx:174-182); that page is not part of this model.

## Model

| member | source | states |
|---|---|---|
| Text.Lower | app/actions.ts:157 | Lower-casing keeps the length, maps each character by its ASCII lower case and leaves no upper-case ASCII letter. |
| Text.LowerOfUpper | app/actions.ts:157 | Lower-casing an upper-cased string gives the same result as lower-casing the original. |
| Text.LowerIdempotent | app/watchlist/page.tsx:42 | Lower-casing twice is the same as lower-casing once. |
| Text.Includes | app/actions.ts:161 | `includes` holds only when the text is at least as long as the substring. |
| Text.IncludesIff | app/actions.ts:161 | `includes` holds exactly when the substring occurs at some position, in both directions. |
| Text.IncludesAt | app/actions.ts:161 | An occurrence at any position makes `includes` hold. |
| Text.IncludesChars | app/watchlist/page.tsx:42 | Every character of an included string occurs in the whole string. |
| Text.IncludesEmpty | app/watchlist/page.tsx:42 | The empty string is included in every string. |
| Text.Trim | app/watchlist/page.tsx:28-30 | `trim` returns a slice of the input with only white space before and after it. The slice is empty exactly when the input is all white space, and otherwise it starts and ends with a character that is not white space. |
| Text.TrimIdempotent | app/watchlist/page.tsx:30 | Trimming a trimmed title changes nothing. |
| Text.TrimUnpadded | app/watchlist/page.tsx:30 | A title with no white space at either end is stored as typed. |
| Fallback.CategoryRecs | app/actions.ts:156 | Indexing `singleRecommendations` by `category` finds the entry whose property name is `category`, and finds nothing exactly when no entry has that name. |
| Fallback.CategoryRecsOfName | app/actions.ts:156 | Looking up an entry's own property name finds that entry. |
| Fallback.SubGenre | app/actions.ts:159-184 | Each branch's if/else chain chooses the key of the first rule in an ordered (keywords, key) list that has a keyword occurring in the lower-cased input, or "default". |
| Fallback.TwoRules | app/actions.ts:161-166 | Two rules of two keywords each decide like a branch's if/else chain: the first rule when either of its keywords occurs, else the second rule when either of its keywords occurs, else "default". |
| Fallback.Property | app/actions.ts:162-182 | Reading the chosen key succeeds exactly when the category's entry exists and holds that key, and then gives one of that entry's three literals. Otherwise it fails with a TypeError. |
| Fallback.GenerateSingleFallback | app/actions.ts:62-187 | The selector succeeds exactly for "anime", "movies" and "web-series", and then returns one of that category's three literals. Any other category fails with a TypeError, whatever the input. |
| Fallback.FirstRuleWins | app/actions.ts:160-184 | When a keyword of a branch's first rule occurs, that rule's key is chosen whatever later rules match ("action"/"fight" over "romance"/"love", "sci-fi"/"science" over "thriller"/"suspense", "k-drama"/"korean" over "mystery"/"thriller"). |
| Fallback.FallbackIgnoresCase | app/actions.ts:157 | Upper-casing or lower-casing the input does not change the record chosen. |
| Fallback.PlatformOnlyForWebSeries | app/actions.ts:122-153 | A chosen record has a platform exactly when the category is "web-series". |
| Fallback.LoveActionAnimeRoute | app/actions.ts:160-162 | "I love action anime" contains both "love" and "action", and the anime branch chooses "action". |
| Fallback.LoveActionAnime | app/actions.ts:64-73 | "I love action anime" in "anime" gives Demon Slayer: Kimetsu no Yaiba, rated "9/10", with no platform. |
| Fallback.KoreanDramaRoute | app/actions.ts:176-178 | "recommend korean drama" contains "korean", so the web-series branch chooses "kdrama". |
| Fallback.KoreanDrama | app/actions.ts:122-132 | "recommend korean drama" in "web-series" gives Crash Landing on You, on Netflix. |
| FallbackText.Written | app/actions.ts:238-243 | One `response +=` step only appends to the text, and what it appends is the key's `KEY: value` line ended by a line break, or nothing when the key has no value to write. |
| FallbackText.PosterTail | app/actions.ts:244 | The last step appends `POSTER: ` and the poster, with no line break, when the poster is truthy, and nothing otherwise. |
| FallbackText.Serialize | app/actions.ts:238-246 | The fallback text is the TITLE, GENRE, YEAR, PLATFORM, RATING and DESCRIPTION lines that have values, in that order and each ended by a line break, followed by the POSTER line with no line break, or by nothing. |
| FallbackText.LinesShape | app/actions.ts:238-244 | The i-th line is the label of the i-th key that has a value, followed by that value. |
| FallbackText.WrittenStep | app/actions.ts:238-242 | One `response +=` step keeps the text equal to the `KEY: value` lines of the keys so far, each ended by a line break. A key with no value to write adds no line. |
| FallbackText.SerializeLines | app/actions.ts:236-246 | For a record whose values hold no line break, splitting the text at line breaks gives exactly one `KEY: value` line per key in key order. When there is no poster, one empty piece follows. |
| FallbackText.EmittedKeysWithYearAndPoster | app/actions.ts:240-244 | A record with a year and a poster writes all seven keys, or all but PLATFORM when its platform is absent or empty. |
| FallbackText.AnimeLiterals | app/actions.ts:64-92 | The three anime literals have non-empty required fields, a year and a poster, and no platform. |
| FallbackText.MovieLiterals | app/actions.ts:93-121 | The three movie literals have non-empty required fields, a year and a poster, and no platform. |
| FallbackText.WebSeriesLiterals | app/actions.ts:122-153 | The three web-series literals have non-empty required fields, a year, a poster and a platform. |
| FallbackText.LiteralsWellFormed | app/actions.ts:64-153 | Every record the selector can return has non-empty title, genre, rating and description, a year and a poster. It has a platform exactly when it is a web-series literal. Its line breaks are covered by LiteralLines.LiteralsSingleLine. |
| FallbackText.LiteralKeys | app/actions.ts:64-153 | A fallback literal's text has all seven keys for web-series and all but PLATFORM otherwise. |
| FallbackText.DemonSlayerLines | app/actions.ts:65-73 | The Demon Slayer text has six lines, TITLE, GENRE, YEAR, RATING, DESCRIPTION and POSTER, with no PLATFORM line. |
| FallbackText.CrashLandingOnYouLines | app/actions.ts:123-132 | The Crash Landing on You text has seven lines, and the PLATFORM line comes after YEAR and before RATING. |
| LiteralLines.DemonSlayerSingleLine | app/actions.ts:65-73 | No value of the Demon Slayer: Kimetsu no Yaiba record holds a line break. |
| LiteralLines.YourNameSingleLine | app/actions.ts:74-82 | No value of the Your Name record holds a line break. |
| LiteralLines.AttackOnTitanSingleLine | app/actions.ts:83-91 | No value of the Attack on Titan record holds a line break. |
| LiteralLines.EverythingEverywhereSingleLine | app/actions.ts:94-102 | No value of the Everything Everywhere All at Once record holds a line break. |
| LiteralLines.ParasiteSingleLine | app/actions.ts:103-111 | No value of the Parasite record holds a line break. |
| LiteralLines.InceptionSingleLine | app/actions.ts:112-120 | No value of the Inception record holds a line break. |
| LiteralLines.CrashLandingOnYouSingleLine | app/actions.ts:123-132 | No value of the Crash Landing on You record holds a line break. |
| LiteralLines.StrangerThingsSingleLine | app/actions.ts:133-142 | No value of the Stranger Things record holds a line break. |
| LiteralLines.QueensGambitSingleLine | app/actions.ts:143-152 | No value of the The Queen's Gambit record holds a line break. |
| LiteralLines.AnimeSingleLine | app/actions.ts:64-92 | No value of the three anime records holds a line break. |
| LiteralLines.MoviesSingleLine | app/actions.ts:93-121 | No value of the three movie records holds a line break. |
| LiteralLines.WebSeriesSingleLine | app/actions.ts:122-153 | No value of the three web-series records holds a line break. |
| LiteralLines.LiteralsSingleLine | app/actions.ts:64-153 | No value of any record the selector can return holds a line break. |
| LiteralLines.LiteralTextLines | app/actions.ts:236-246 | The text the fallback path returns splits at line breaks into exactly one `KEY: value` line per key it writes, in key order, with nothing after the POSTER line: seven lines for a web series, six otherwise. |
| Prompts.Render | app/actions.ts:22-58 | A rendered prompt starts with its template's instruction, then a blank line and the template's `KEY: [placeholder]` format lines, each ended by a line break, and one more line break (the preamble); it is never empty, so `\|\|` falls back only when the category has no template. Right after the preamble come "User preference: " and the user's text verbatim. |
| Prompts.PromptFor | app/actions.ts:22-59 | `categoryPrompts[category]` is defined exactly for "anime", "movies" and "web-series". |
| Prompts.ChoosePrompt | app/actions.ts:203 | The prompt is the category's own template for the three known categories, and the movies template for every other string. |
| Prompts.FormatText | app/actions.ts:25-29 | The shared format is the lines `TITLE: ` with the title placeholder, `GENRE: [Genres]`, `YEAR: [Release Year]`, `PLATFORM: [Where to watch]` when asked for, `RATING: [Rating/10]` and `DESCRIPTION: ` with the description placeholder, as the three templates spell them (lines 37-41 and 49-54 as well). |
| Prompts.FormatLines | app/actions.ts:25-29 | A template's format has one `KEY: [placeholder]` line per field, in order. |
| Prompts.AskedKeys | app/actions.ts:49-54 | The keys a template asks for are its fields' keys, in order. |
| Prompts.PromptQuotesInput | app/actions.ts:203 | Whatever the category, the prompt sent contains the user's text. |
| Prompts.FormatKeys | app/actions.ts:25-29 | The shared format asks for TITLE, GENRE, YEAR, RATING and DESCRIPTION, with PLATFORM after YEAR exactly when it is included. |
| Prompts.TemplateKeys | app/actions.ts:22-59 | The anime and movies templates ask for TITLE, GENRE, YEAR, RATING and DESCRIPTION. The web-series template adds PLATFORM after YEAR. No template asks for POSTER. |
| Prompts.OnlyWebSeriesAsksPlatform | app/actions.ts:47-58 | Among the known categories, only the web-series template asks for PLATFORM. |
| Prompts.FallbackMatchesTemplate | app/actions.ts:22-153 | The fallback text of a known category writes exactly the keys that category's template asks for, then POSTER. |
| Stream.StreamRecommendations | app/actions.ts:13-248 | With the key missing or empty the call fails with a configuration error, whatever the service would answer. A usable reply is returned as received. Otherwise the call succeeds exactly for the three known categories, with the text of the record the selector picks for this input, and every failure past the key check is the selector's TypeError. |
| Stream.OnlyChosenPromptIsSent | app/actions.ts:189-212 | The result depends on the service only through its answer to the chosen prompt. |
| Stream.ReplyReturnedVerbatim | app/actions.ts:224-226 | A reply with non-empty content is returned exactly as received, for any category. |
| Stream.FallbackAnswer | app/actions.ts:231-247 | When the call fails for a known category, the selector succeeds, its record is one of that category's three literals, and the result is that record's fallback text. |
| Stream.UnknownCategory | app/actions.ts:203-236 | An unknown category is sent the movies prompt, and when the call fails the result is the selector's TypeError, not a movie. |
| Stream.LoveActionAnimeOffline | app/actions.ts:231-247 | "I love action anime" in "anime" with the service down gives the Demon Slayer text. |
| Stream.KoreanDramaOffline | app/actions.ts:231-247 | "recommend korean drama" in "web-series" with the service down gives the Crash Landing on You text. |
| Watchlist.RemoveAt | app/watchlist/page.tsx:37 | Filtering out position `index` shortens the list by one when the index is in range, and keeps its length for any other index. |
| Watchlist.RemoveAtSlices | app/watchlist/page.tsx:37 | Filtering out position `index` cuts exactly that element when the index is in range, and leaves the list unchanged for any other index, -1 included. |
| Watchlist.Matches | app/watchlist/page.tsx:42 | An empty search term matches every title, and no term longer than the title matches it. |
| Watchlist.IndexOf | app/watchlist/page.tsx:138 | `indexOf` gives -1 exactly when the title is absent. Otherwise it gives a position holding the title, with no equal title before it. |
| Watchlist.Filtered | app/watchlist/page.tsx:42 | A title is shown iff it is in the list and its lower-cased text contains the lower-cased term. Each shown title appears as often as in the list. |
| Watchlist.FilteredIsSubsequence | app/watchlist/page.tsx:42 | The search result keeps the list's order: it is a subsequence of the list. |
| Watchlist.EmptySearchKeepsAll | app/watchlist/page.tsx:42 | An empty search term shows the whole list. |
| Watchlist.DeleteRemovesFirstCopy | app/watchlist/page.tsx:138 | Deleting a shown title removes the earliest position holding an equal title, and exactly one occurrence of it disappears. |
| Watchlist.DeleteAbsentIsNoop | app/watchlist/page.tsx:138 | Deleting a title not in the list passes -1 and changes nothing. |
| Watchlist.SearchPara | app/watchlist/page.tsx:42 | Searching "para" in Parasite, Inception, Parasite shows both copies of Parasite. |
| Watchlist.WatchlistPage.constructor | app/watchlist/page.tsx:15-24 | Mounting starts with empty inputs and shows the saved list, or an empty list when nothing is saved. |
| Watchlist.WatchlistPage.SetNewItem | app/watchlist/page.tsx:80 | Typing in the add box changes only the add box. |
| Watchlist.WatchlistPage.SetSearchTerm | app/watchlist/page.tsx:102 | Typing in the search box changes only the search term. |
| Watchlist.WatchlistPage.AddToWatchlist | app/watchlist/page.tsx:26-34 | Blank input after trimming changes nothing, the add box included. Otherwise the trimmed text is appended with no duplicate check, the new list is stored and the add box is cleared. |
| Watchlist.WatchlistPage.RemoveFromWatchlist | app/watchlist/page.tsx:36-40 | The list loses exactly position `index`, or nothing when `index` is out of range. The result is stored in either case, and the inputs are kept. |
| Watchlist.WatchlistPage.FilteredWatchlist | app/watchlist/page.tsx:42 | The titles shown are those in the list that match the current search term. |
| Watchlist.WatchlistPage.DeleteShown | app/watchlist/page.tsx:138 | The delete button of a shown card removes the first position holding its title, so exactly one copy goes, and stores the result. |
| Watchlist.AddTwiceKeepsBoth | app/watchlist/page.tsx:30 | Adding "Parasite" twice gives a list with two entries, both "Parasite". |
| Watchlist.DeleteSecondCopy | app/watchlist/page.tsx:138 | With Parasite, Inception, Parasite saved and "para" searched, deleting the second card shown removes the first Parasite. The list becomes Inception, Parasite. |

## Left out

- The request to the completion endpoint (URL, headers, JSON body, model and sampling settings, status and response checks) is a parameter `service` that maps the prompt to either a reply content or a failure. What the service answers is outside the model.
- Reading `GROQ_API_KEY` from the environment: the key is a parameter. Console logging is not modelled.
- The text parser that turns `KEY: value` lines back into a card lives in the chat page, which is not part of this model. The line shape it relies on is stated with a splitter on line breaks.
- `localStorage` and `JSON.parse`/`JSON.stringify`: the store is a ghost field holding the parsed list. A saved value that does not parse is not modelled.
- `toLowerCase` lower-cases ASCII letters only. Unicode case mapping is not modelled.
- Strings are sequences of Unicode scalar values. UTF-16 surrogate pairs, which JavaScript strings expose, are not modelled.
- Fallback.CategoryRecs: a category naming a property every JavaScript object inherits (such as "constructor" or "toString") finds that property rather than `undefined`. The model treats every string other than the three category names as absent, in the record table and in the prompt table alike.
- React rendering, effect scheduling and the asynchronous control flow are not modelled. Each page action is one sequential method call.
- The other parts of the repository are not part of this model: the chat page, the key-validation route, the key set-up form, the loading screen, theming and layout.
