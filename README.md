# Tech-radar trend analysis, modelled in Dafny

This project models the core of a tech-radar application. An AI provider is asked to classify developer tools of one focus area as *signal* or *noise*. The backend pulls a JSON array out of the completion, validates and normalises each candidate into a trend record. A failing provider call or a candidate whose validation raises becomes an error envelope; a completion with no array, or one whose array `json.loads` rejects with a JSONDecodeError, becomes an analysis with a `parse_error` and no trends, while any other exception from decoding gives the error envelope. A prompt-template service loads, lists, lints and tests the Markdown templates those prompts come from. Request schemas guard the stored records. In the web client, formatters display the records and a table controller sorts, filters and looks them up.

The modules follow the program:

- `grok_service.dfy` (`Grok`) covers the analysis service. It includes:
  - candidate validation (`ValidateTrend`)
  - the validation loop (`Screen`, `ParseResponse`)
  - the bracket scan (`BracketSlice`)
  - the guard chain (`Analyze`)
  - the service object with its prompt cache (`GrokService`)
- `prompt_service.dfy` (`Prompts`) holds the template service (`PromptService`), the tester (`PromptTester`) and the specification functions their methods are proved against.
- `schemas.dfy` (`Schemas`) holds the field constraints of create and update requests.
- `formatter.dfy` (`Formatter`) holds the four display formatters.
- `data_table.dfy` (`DataTable`) holds the table controller's view state, filter composition, sort toggling and row lookup.
- `text.dfy` (`Text`) and `py_json.dfy` (`PyJson`) hold the parts of Python's string methods, decoded JSON values, `int()`, `in` and exceptions that the core relies on. `wrappers.dfy` holds `Option`.

Exceptions are values. A Python call that may raise returns `Outcome<T>`, which is either `Returned(v)` or `Raised(e)`. A candidate's validation is `Accepted`, `Dropped` or `Aborted`. Four things are parameters of the operations that use them:

- the prompts directory, as a map from file name to content at the time of the call
- the provider call, as a function from prompt to `Completed(text)` or `CallFailed(message)`
- `json.loads`, as a function from the bracketed slice to `Elements(items)`, `DecodeError(message)` for a JSONDecodeError, or `DecodeRaised(error)` for another exception (an integer literal over the digit limit, nesting past the recursion limit)
- the directory listing, as a sequence of file names in arbitrary order

`str.lower()` is modelled on ASCII letters. Every fixed string it is compared against (`signal`, `noise`, the required section names) is ASCII.

## Model

| member | source | states |
|---|---|---|
| Grok.Clamp | backend/app/services/grok_service.py:206 | the score lies in 1..100; it is the input inside that range, 1 below it, 100 above it |
| Grok.ValidateTrend | backend/app/services/grok_service.py:181-212 | `in` on None, a bool or a number raises; a list or str is dropped unless it holds both names, when `.get` raises; a dict missing `tool_name` or `classification` is dropped; with both keys, a non-str classification raises at `.lower()`, one that is not signal/noise is dropped, and a score `int()` rejects raises its error; an accepted record is well formed (signal/noise, score 1..100, the caller's focus area), keeps `tool_name` and carries the lower-cased classification |
| Grok.HasRequiredFields | backend/app/services/grok_service.py:191-196 | on a dict, both keys present; on a list, both names as elements; on a str, both names as substrings; on None, a bool or a number, the `in` TypeError |
| Grok.ValidateAcceptsExactly | backend/app/services/grok_service.py:191-206 | with both required keys and a string classification, a candidate is accepted exactly when its classification lower-cases to signal or noise and its score converts with `int()` |
| Grok.ValidateNormalises | backend/app/services/grok_service.py:203-211 | an accepted record's score is the clamped `int()` of the given one (50 when absent), the other fields default to "", [], [] and False, and the focus area is the caller's |
| Grok.Screen | backend/app/services/grok_service.py:155-159 | the loop returns exactly when no candidate's validation raises; then its records are at most as many as the candidates and all well formed |
| Grok.ScreenStep | backend/app/services/grok_service.py:155-159 | one more loop iteration raises the candidate's error, skips a dropped candidate, or appends the accepted record |
| Grok.ScreenStops | backend/app/services/grok_service.py:155-159 | once a candidate raises, the whole batch raises that error whatever follows |
| Grok.ScreenPrefixRaised | backend/app/services/grok_service.py:155-159 | once a prefix of the candidates raises, the rest cannot change the outcome |
| Grok.ValidateAll | backend/app/services/grok_service.py:155-159 | the append loop returns exactly `Screen` of the decoded elements |
| Grok.ScreenAppend | backend/app/services/grok_service.py:155-159 | screening a concatenation: the first part's error, else the second's, else the two record lists concatenated |
| Grok.ScreenSingle | backend/app/services/grok_service.py:156-159 | one candidate yields its error, no record, or its one record |
| Grok.FirstAbortWins | backend/app/services/grok_service.py:155-159 | the first candidate whose validation raises decides the error of the whole batch |
| Grok.AllDroppedLeavesNothing | backend/app/services/grok_service.py:155-159 | when every candidate is dropped, the trend list is empty |
| Grok.BracketSlice | backend/app/services/grok_service.py:147-151 | a slice exists exactly when there is a `[` and a `]` after the first `[`; it is the text from the first `[` through the last `]`, so it starts with `[`, ends with `]`, with no `[` before it and no `]` after it |
| Grok.BracketSliceRoundTrip | backend/app/services/grok_service.py:147-151 | a bracketed payload surrounded by text with no `[` before and no `]` after is exactly the slice decoded |
| Grok.BareArraySlice | backend/app/services/grok_service.py:147-151 | a response that is nothing but a bracketed array is sliced to itself |
| Grok.FindIsFirst | backend/app/services/grok_service.py:147 | `find` returns the position of a character with no earlier occurrence |
| Grok.RFindIsLast | backend/app/services/grok_service.py:148 | `rfind` returns the position of a character with no later occurrence |
| Grok.ParseSpec | backend/app/services/grok_service.py:135-179 | a returned result keeps the raw response and focus area and holds only well-formed records; no bracket pair gives the "No JSON array found" result; a parse error comes with no trends |
| Grok.ParseDecodeFailure | backend/app/services/grok_service.py:173-179 | a JSONDecodeError returns the raw response, no trends and the `parse_error` "JSON decode error: " followed by the decoder's message |
| Grok.ParseDecodeSuccess | backend/app/services/grok_service.py:151-163 | a decoded array returns the screened records and no `parse_error`, or propagates the first candidate's exception |
| Grok.ParseOneAccepted | backend/app/services/grok_service.py:150-165 | a bare array decoding to one accepted candidate gives exactly that record, the raw text and no `parse_error` |
| Grok.ParseResponse | backend/app/services/grok_service.py:135-179 | the scan, decode and append loop return exactly `ParseSpec` |
| Grok.Analyze | backend/app/services/grok_service.py:82-107 | without a key the result is the "XAI_API_KEY not configured" envelope; a result with trends implies every guard passed, names the requested focus area and holds only well-formed records; `AnalyzeAfterGuards` gives the result once the guards pass |
| Grok.AnalyzeGuardOrder | backend/app/services/grok_service.py:92-101 | the credential guard comes first, then the focus-area guard, then the missing-prompt guard, each with its own message |
| Grok.ChoosePrompt | backend/app/services/grok_service.py:99 | `custom_prompt or template`: a non-empty custom prompt, else the template |
| Grok.CustomPromptOverrides | backend/app/services/grok_service.py:99 | a non-empty custom prompt makes the template irrelevant |
| Grok.AnalyzeAfterGuards | backend/app/services/grok_service.py:99-107 | once the guards pass, the custom prompt or else the template is sent; a failed call is the `error` envelope with its message, and a completed one is what the parse returns, or the envelope with the text of what it raised |
| Grok.AnalyzeNeverRaises | backend/app/services/grok_service.py:99-107 | whether the prompt is the custom one or the template, a failing provider call or a raising parse becomes the `error` envelope with the exception's message and no trends |
| Grok.ValidateTestTool | backend/tests/test_grok_service.py:171-178 | the mocked `TestTool` signal candidate (score 90) becomes a record with that name, classification, score and focus area |
| Grok.ValidateFullCandidate | backend/tests/test_grok_service.py:44-61 | the complete candidate with score 85 keeps every given field, its score and `True` verdict, and gets "voice_ai_ux" |
| Grok.ValidateAcceptsWith | backend/app/services/grok_service.py:197-211 | a dict with both keys, a signal/noise classification and a score that converts becomes the record of its `tool_name`, lower-cased classification, clamped score, `.get` defaults, `bool()` verdict and the caller's focus area |
| Grok.ValidateScoreRaises | backend/app/services/grok_service.py:197-206 | the same dict with a score `int()` cannot convert raises that error |
| PyJson.IntOfHigh | backend/app/services/grok_service.py:206 | `int("high")` raises the invalid-literal ValueError |
| Grok.ValidateBadScore | backend/app/services/grok_service.py:206 | a signal candidate whose score is "high" raises `int()`'s ValueError rather than being dropped |
| Grok.ParseFirstAborts | backend/app/services/grok_service.py:155-159 | a decoded array whose first candidate raises makes the parse raise that error |
| Grok.ParseDecodeRaises | backend/app/services/grok_service.py:143-179 | an exception from `json.loads` other than a JSONDecodeError escapes the parse unchanged |
| Grok.AnalyzeParseRaises | backend/app/services/grok_service.py:99-107 | a parse that raises after the guards becomes the `error` envelope with the exception's text, for the custom prompt or the template |
| Grok.AnalyzeBadScoreFails | backend/app/services/grok_service.py:99-107 | whichever prompt is sent, a completion whose array starts with that candidate gives the envelope "invalid literal for int() with base 10: 'high'" |
| Grok.AnalyzeOneSignal | backend/tests/test_grok_service.py:167-186 | with the template sent (no custom prompt, as in the test) or a custom prompt, a completion holding one complete signal candidate gives one record, with no error, for `voice_ai_ux` |
| Grok.AvailableFocusAreas | backend/app/services/grok_service.py:214-220 | "voice_ai_ux", "agent_orchestration", "durable_runtime" in that order, exactly the areas with a template file |
| Grok.CachedIgnoresDirectory | backend/app/services/grok_service.py:40-41 | a cached focus area is answered from the cache whatever the directory holds |
| Grok.GrokService.constructor | backend/app/services/grok_service.py:20-24 | the key is the given one, the model is "xai/grok-beta", and the cache is empty |
| Grok.GrokService.IsConfigured | backend/app/services/grok_service.py:222-228 | `bool(self.api_key)`: configured exactly when a key is set and Python counts it true, i.e. it is not empty |
| Grok.GrokService.LoadPromptTemplate | backend/app/services/grok_service.py:31-62 | returns the cached text, else the mapped file's text; caches exactly what it read; only focus areas with a template file are ever cached, so only they ever yield a template |
| Grok.GrokService.AnalyzeTrends | backend/app/services/grok_service.py:82-107 | returns `Analyze` of the configuration and the cached-or-read template; the cache grows only when every earlier guard passed and no custom prompt was given |
| Prompts.ResolveTemplate | backend/app/services/prompt_service.py:32-38 | `<name>.md` wins over `<name>_prompt.md`; nothing is found exactly when neither exists |
| Prompts.LookupTemplate | backend/app/services/prompt_service.py:29-44 | a cached name gives its cached text; nothing is found exactly when the name is uncached and neither file exists |
| Prompts.CacheAfterLoad | backend/app/services/prompt_service.py:29-44 | a load adds at most the requested name, only when it resolves, keeps every old entry, and caches what the load returned |
| Prompts.CacheAfterLoadsContents | backend/app/services/prompt_service.py:172-173 | loading a list of names keeps the old cache and adds each listed, uncached name that resolves, with its file's content |
| Prompts.LoadPreservesLookups | backend/app/services/prompt_service.py:29-44 | a load never changes what any later load returns while the directory stays the same |
| Prompts.CachedIgnoresDirectory | backend/app/services/prompt_service.py:29-30 | a cached name is answered from the cache whatever the directory holds |
| Prompts.ListedTemplateLoads | backend/app/services/prompt_service.py:56-60 | every name listed for a `.md` file with a non-empty stem loads again (a file named just `.md` lists as `.md` and is not covered) |
| Prompts.TemplateName | backend/app/services/prompt_service.py:57-59 | the listed name is never longer than the file name; with `PromptFileListedName`, `<name>_prompt.md` lists as `<name>` |
| Prompts.Insert | backend/app/services/prompt_service.py:61 | inserting keeps exactly the old elements plus the new one |
| Prompts.InsertSorted | backend/app/services/prompt_service.py:61 | inserting into a sorted list keeps it sorted |
| Prompts.InsertBound | backend/app/services/prompt_service.py:61 | a lower bound of the list and of the new element stays a lower bound after inserting |
| Prompts.SortStrings | backend/app/services/prompt_service.py:61 | `sorted()`: the result is sorted by code point and is a permutation of the input |
| Prompts.SortedUnique | backend/app/services/prompt_service.py:61 | two sorted permutations of the same names are equal, so the listing does not depend on the directory's order |
| Prompts.HeadIsLeast | backend/app/services/prompt_service.py:61 | the first element of a sorted list is below every element of it |
| Prompts.TailMultiset | backend/app/services/prompt_service.py:61 | a non-empty list's tail holds the list's elements less one copy of the first |
| Prompts.SectionErrorsMeaning | backend/app/services/prompt_service.py:84-86 | no error exactly when every section is present ignoring case; each missing section has its "Missing required section: " message; every message names a missing section |
| Prompts.SectionErrorsStep | backend/app/services/prompt_service.py:84-86 | checking one more section appends its message, only when it is missing, after the earlier ones |
| Prompts.Warnings | backend/app/services/prompt_service.py:88-94 | the JSON-fence warning appears exactly when "```json" is absent, and the focus-area warning exactly when "Focus Area Specific" is absent (both case-sensitive) |
| Prompts.TemplateValidation | backend/app/services/prompt_service.py:63-100 | valid exactly when every required section is present; warnings never make a template invalid |
| Prompts.TitleIsFirstHeading | backend/app/services/prompt_service.py:116-120 | the title is the stripped text after the first line starting with "# ", or "" when no line does |
| Prompts.FindTitle | backend/app/services/prompt_service.py:116-120 | the loop with `break` returns `Title` |
| Prompts.MetadataOf | backend/app/services/prompt_service.py:115-128 | name, character length, a line count of newlines plus one, the title of the split lines, and the linter's validation, valid exactly when every required section is present |
| Prompts.SyntaxReportFor | backend/app/services/prompt_service.py:151-161 | a missing or empty template is "Template not found: <name>"; otherwise the report carries the name and the linter's validation of the text; success exactly when the template exists, is non-empty and validates |
| Prompts.GenerateTestInput | backend/app/services/prompt_service.py:183-198 | the sample for the three known names, the generic input otherwise |
| Prompts.TestInputsCoverPipelineTemplates | backend/app/services/prompt_service.py:192-196 | each template file of the analysis service lists under a name that has its own sample input |
| Prompts.PlainFileListedName | backend/app/services/prompt_service.py:56-60 | `<name>.md`, for a non-empty name not ending in `_prompt`, lists as `<name>` |
| Prompts.PromptFileListedName | backend/app/services/prompt_service.py:57-59 | a `<name>_prompt.md` file is listed under `<name>` |
| Prompts.PromptService.constructor | backend/app/services/prompt_service.py:15-18 | the cache starts empty |
| Prompts.PromptService.LoadTemplate | backend/app/services/prompt_service.py:20-46 | returns the cached text, else `<name>.md`, else `<name>_prompt.md`; caches what it read under the requested name |
| Prompts.PromptService.ListTemplates | backend/app/services/prompt_service.py:48-61 | the result is sorted and is a permutation of the names of the `.md` files, each with a trailing `_prompt` removed |
| Prompts.PromptService.CheckSections | backend/app/services/prompt_service.py:84-86 | the loop over the required sections returns `SectionErrors` |
| Prompts.PromptService.ValidateTemplate | backend/app/services/prompt_service.py:63-100 | returns `TemplateValidation` |
| Prompts.PromptService.GetTemplateMetadata | backend/app/services/prompt_service.py:102-128 | None for a missing or empty template, else `MetadataOf` the loaded text; the cache changes as a load changes it |
| Prompts.PromptTester.constructor | backend/app/services/prompt_service.py:134-140 | uses the given service, or a fresh one with an empty cache |
| Prompts.PromptTester.TestTemplateSyntax | backend/app/services/prompt_service.py:142-161 | returns `SyntaxReportFor` the loaded template |
| Prompts.PromptTester.TestEach | backend/app/services/prompt_service.py:172-173 | a report for exactly the listed names, each that name's `SyntaxReportFor`; the cache is the old one after loading each name in turn, and no lookup changes |
| Prompts.PromptTester.TestAllTemplates | backend/app/services/prompt_service.py:163-181 | one report per listed name, each that name's `SyntaxReportFor`; success exactly when every report succeeds; the count is of the listed names; the cache keeps its old entries and gains every listed, uncached name that resolves, with its file's content; no lookup changes |
| Schemas.CreateErrors | backend/app/schemas.py:7-45 | classification fails exactly when it is not "signal"/"noise"; confidence exactly when outside 0..100; verdict exactly when outside 1..5 |
| Schemas.UpdateErrors | backend/app/schemas.py:48-63 | an absent field always passes; a present one fails exactly when it breaks the create constraint |
| Schemas.AsUpdate | backend/app/schemas.py:48-63 | the update that sets every field carries the create request's constrained values |
| Schemas.UpdateAgreesWithCreate | backend/app/schemas.py:54-62 | an update naming every field fails on exactly the fields the create request fails on |
| Schemas.EmptyUpdateAccepted | backend/app/schemas.py:51-63 | an update that changes nothing is accepted |
| Schemas.SchemaLooserThanStorage | backend/app/schemas.py:18-23 | every stored confidence meets the schema; 0 meets the schema but not the storage range 1..100 |
| Schemas.PipelineRecordsMeetSchema | backend/app/services/grok_service.py:199-206 | a record the analysis pipeline accepts has a classification and confidence that both the schema and storage accept |
| Formatter.ClassificationState | webapp/model/formatter.js:5-12 | "Success" exactly for "signal", "None" for everything else |
| Formatter.ClassificationIcon | webapp/model/formatter.js:14-21 | accept exactly for signal, decline exactly for noise, the question mark exactly otherwise |
| Formatter.ConfidenceText | webapp/model/formatter.js:23-30 | High exactly from 90, Medium exactly for 70..89, Low exactly below 70 |
| Formatter.ConfidenceTextMonotone | webapp/model/formatter.js:23-30 | a higher score never gets a lower band |
| Formatter.FocusAreaText | webapp/model/formatter.js:32-39 | the display name of a known key, any other value unchanged |
| Formatter.EveryFocusAreaNamed | webapp/model/formatter.js:33-37 | every focus area the analysis service accepts has a display name |
| Formatter.LiteralLookup | webapp/model/formatter.js:38 | an own key gives its name; undefined exactly for a key that is neither own nor inherited from `Object.prototype` |
| Formatter.FocusAreaTextAsWritten | webapp/model/formatter.js:38 | a known key gives its display name; any string result is the intended one |
| Formatter.AsWrittenAgreesOffPrototype | webapp/model/formatter.js:38 | away from inherited member names, the code as written agrees with the intended mapping |
| Formatter.InheritedMemberLeaks | webapp/model/formatter.js:38 | "toString" gives a function and "__proto__" gives an object, not the input |
| DataTable.FilterClauses | webapp/controller/DataTable.controller.js:63-88 | the search clause is present exactly when the query is non-empty; each selector clause exactly when its key is neither empty nor "all"; a row passes exactly when every present clause holds |
| DataTable.NoSelectionFiltersNothing | webapp/controller/DataTable.controller.js:88 | with no query and both selectors on "all" there is no clause and every row passes |
| DataTable.SearchQuery | webapp/controller/DataTable.controller.js:49 | the query, else the new value, else "" |
| DataTable.NextDescending | webapp/controller/DataTable.controller.js:110-115 | the same field toggles the direction; another field is descending exactly when it is the confidence |
| DataTable.SortTwiceRestores | webapp/controller/DataTable.controller.js:111-112 | two sorts on the current field restore the direction |
| DataTable.InitialConfidenceSortAscends | webapp/controller/DataTable.controller.js:15-19 | from the initial view state, sorting by confidence gives ascending |
| DataTable.NameSortStartsAscending | webapp/controller/DataTable.controller.js:113-115 | switching from confidence to name always starts ascending |
| DataTable.DataTableController.constructor | webapp/controller/DataTable.controller.js:14-20 | no items, sorted by confidence, descending, no filter and no sorter |
| DataTable.DataTableController.SortTable | webapp/controller/DataTable.controller.js:102-122 | the stored field is the requested one, the direction is `NextDescending`, the sorter uses exactly them, and nothing else changes |
| DataTable.DataTableController.ApplyFilters | webapp/controller/DataTable.controller.js:58-89 | the applied filter is `FilterClauses`, and nothing else changes |
| DataTable.DataTableController.OnSearch | webapp/controller/DataTable.controller.js:48-51 | the applied filter is `FilterClauses` of `SearchQuery` |
| DataTable.DataTableController.FindTrendIndex | webapp/controller/DataTable.controller.js:154-163 | the least index whose tool name matches, or -1 when none does; the result lies in -1..len-1 |
| Text.Find | backend/app/services/grok_service.py:147 | `str.find`: -1 exactly when absent, else the first occurrence |
| Text.RFind | backend/app/services/grok_service.py:148 | `str.rfind`: -1 exactly when absent, else the last occurrence |
| Text.Strip | backend/app/services/prompt_service.py:119 | `str.strip`: the result occurs in the input and has no whitespace at either end |
| Text.StripRemovesOnlySpaces | backend/app/services/prompt_service.py:119 | `str.strip` cuts only whitespace: the left-stripped text is a suffix of the input preceded by whitespace only, and the result is a prefix of it followed by whitespace only |
| Text.StripKeepsPrefix | backend/app/services/prompt_service.py:119 | the trailing half of `str.strip`: the result is a prefix of the left-stripped text and what follows it is whitespace |
| Text.StripSpans | backend/app/services/prompt_service.py:119 | a whitespace-only cut from the front followed by a whitespace-only cut from the back leaves a slice of the input with only whitespace on either side of it |
| Text.StripStart | backend/app/services/prompt_service.py:119 | the leading half of `str.strip`: a suffix of the input that is empty or starts with a non-whitespace character |
| Text.StripEnd | backend/app/services/prompt_service.py:119 | the trailing half of `str.strip`: a prefix of the input that is empty or ends with a non-whitespace character |
| Text.LeadingSpaces | backend/app/services/prompt_service.py:119 | everything the leading half cuts off is whitespace |
| Text.TrailingSpaces | backend/app/services/prompt_service.py:119 | everything the trailing half cuts off is whitespace |
| Text.StripUnchanged | backend/app/services/prompt_service.py:119 | text with no whitespace at either end strips to itself |
| Text.Lines | backend/app/services/prompt_service.py:115 | `split("\n")`: one more part than newlines, none containing a newline, and joining them gives back the text |
| Text.LexLeTotal | backend/app/services/prompt_service.py:61 | code-point order is total |
| Text.LexLeTransitive | backend/app/services/prompt_service.py:61 | code-point order is transitive |
| Text.LexLeAntisymmetric | backend/app/services/prompt_service.py:61 | code-point order is antisymmetric |
| PyJson.IntOfShow | backend/app/services/grok_service.py:206 | `int(str(n))` gives back `n` when `str(abs(n))` has at most 4300 digits, and raises the conversion-limit ValueError with the digit count otherwise |
| PyJson.ShowParses | backend/app/services/grok_service.py:206 | `str(n)` is an integer literal for `n` with as many digits as `str(abs(n))` has characters |
| PyJson.IntOf | backend/app/services/grok_service.py:206 | `int()`: an int is itself, a bool 0 or 1; a str converts, to the literal's value, exactly when it is a literal of at most 4300 digits, and otherwise raises the invalid-literal or the conversion-limit ValueError; None, a list or a dict raise the argument TypeError |
| PyJson.Member | backend/app/services/grok_service.py:195 | `in` raises the not-iterable TypeError exactly on None, a bool or a number; on a dict it is key membership |
| PyJson.Truthy | backend/app/services/grok_service.py:210 | `bool()`: false exactly for None, False, 0, "", [] and {} |
| PyJson.ParseDigits | backend/app/services/grok_service.py:206 | `int()` parses a run of decimal digits to its value, and with a leading "-" to its negation |

## Left out

- The provider call `_call_grok` and its client library are a parameter. The model takes its outcome as either completion text or a failure message. The system prompt it sends is not part of this model.
- `json.loads` is a parameter too. Only the bracket scan, the slice handed to it and the three ways it can end are modelled. Which texts it rejects, and which exceed the integer digit limit or the recursion limit, is up to the parameter. Decoding is assumed to give a list, the only thing text starting with `[` can decode to.
- File access is modelled as a map from file name to content, with listing order as a sequence. A file that is absent from the map does not exist. The directory's absence is an empty listing.
- Read failures other than a missing file are not modelled: `Grok.Analyze`, `Grok.GrokService.AnalyzeTrends` and `Prompts.PromptService.LoadTemplate` never raise. In the code, `_load_prompt_template` (grok_service.py:61) catches only `FileNotFoundError`, so a `PermissionError`, an `IsADirectoryError` or a `UnicodeDecodeError` from the UTF-8 read escapes it. The load at grok_service.py:99 runs outside the `try` of lines 103-107, so `analyze_trends` then raises instead of returning an envelope. `load_template` (prompt_service.py:45) catches `OSError` but not `UnicodeDecodeError`, so it can raise too.
- Floats are not modelled: `PyJson.Json` has no case for JSON numbers with a fraction or an exponent, or for the NaN and Infinity literals `json.loads` accepts. So every path that depends on a float is out: `int()` of a float score, `in` raising on a float candidate ("argument of type 'float' is not iterable"), `.lower()` raising on a float classification, and `bool()` of a float verdict.
- The `int()` error message quotes the raw string as text. Python's repr of it (escapes, the choice of quote) is not modelled.
- `PyJson.IntOf` accepts ASCII digits only. Python's `int()` also accepts other Unicode decimal digits.
- `PyJson.IntOf` uses the default digit limit of 4300. A different limit set through `sys.set_int_max_str_digits` or `PYTHONINTMAXSTRDIGITS` is not modelled, and neither is a Python release older than the limit. The limit error is raised only for text that is otherwise an integer literal.
- `Text.Lower` folds ASCII letters only. Every string the core compares a lower-cased value against is ASCII, so decisions agree with Python's.
- The singletons `get_grok_service`, `get_prompt_service` and `get_prompt_tester` hold global instances and add no behaviour.
- The schemas do not model type coercion or missing required fields. Create and update requests are typed values, so only the value constraints are modelled.
- The table filters compare ignoring case on ASCII letters. Unicode normalisation is not modelled.
- The table's item count refresh (`_updateItemCount`, `onRefreshTable`) reads the binding's length and is not modelled. Neither is the navigation to the detail page.
- `DataTable.DataTableController.FindTrendIndex` compares tool names as strings. A `/trends` value that is not a list is not modelled.
- Out of scope, as HTTP, ORM, configuration and UI routing plumbing: the API routers, the database and ORM models, configuration, the application entry point, and the other web controllers. The ORM's confidence range 1..100 appears only as `Schemas.StoredConfidenceOk`.
- The docstring of `analyze_trends` promises `None` when the call fails. The code always returns a dictionary, and the model follows the code.

## Findings

| source | as written | input that shows it | evidently intended | confidence | as-written member | corrected member |
|---|---|---|---|---|---|---|
| webapp/model/formatter.js:38 | `oMap[sFocusArea] \|\| sFocusArea` looks the key up through the object literal's prototype chain | a record whose focus area is "toString" (or "constructor", "__proto__") displays an inherited function or object instead of its own text; the database's check constraint (backend/app/models.py:57-59) admits only the three keys, so such a value reaches the formatter only from data that did not come from storage | return the focus area unchanged when it is not one of the three keys | medium; not executed | Formatter.FocusAreaTextAsWritten (counterexample: Formatter.InheritedMemberLeaks) | Formatter.FocusAreaText |
