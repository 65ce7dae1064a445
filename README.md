# Fictional story generator: prompt builder and provider adapter

A Dafny model of the core of a desktop fiction generator. The user picks a
genre, a theme, a character, a setting, a length tier and an authoring mode.
The `StoryGenerator` builds a prompt from these choices and asks the
`AIStoryEngine` for a story. The engine sends the prompt to OpenAI,
Anthropic or Google, or returns a demo text when no usable key is
configured. It pulls the generated text out of the vendor's JSON reply and
turns every failure into a plain error string.

The model has five modules:

- `Text`: Python's `str.strip()` and `", ".join(...)`, the decimal text of a
  number inside an f-string, and substring containment.
  - An f-string is modelled as the concatenation (`Concat`) of its literal
    segments and interpolated values.
- `PyJson`: the decoded JSON reply (`Json`), plus the Python operations the
  engine applies to it: `x[k]`, `k in x`, `len(x)`, `.strip()` and
  f-string display.
  - Each operation raises the exception CPython raises for a value of the
    wrong shape.
  - `Walk` is Python's chained subscripting. `Path` is the JSON path
    lookup each vendor documents.
- `StoryTemplates`: the `GENRES` and `THEMES` catalog as constant maps, with
  lenient lookup (a missing name has no elements).
- `AiEngine`: the engine and its outcomes.
  - The configuration is injected as a `Config` value; `ShippedConfig` holds
    the placeholder keys.
  - `Plan` is the provider dispatch and the key checks, taken before any I/O.
  - `Extract`/`GoogleExtract` are the response handling, and `Handler` and
    `Finish` are the error handling.
  - The network is a `Network` object. Its `respond` function answers
    each request given every request issued before it, so two identical
    requests may get different replies. Its `sent` log records each request
    issued.
  - The `AIStoryEngine` class holds the provider and key fixed at
    construction. Its `GenerateStory` method is proved equal to the pure
    `Response` function, and to issue exactly the requests `Plan` calls for.
- `Generator`: the tier table, the three prompt builders, the mode dispatch
  `BuildPrompt`, and the `StoryGenerator` class.
  - The class has a `storiesGenerated` counter that each call raises by one.

## Model

| member | source | states |
|---|---|---|
| `Generator.WordCountTiers` | story_generator.py:24 | The tiers are exactly Short, Medium and Long, with counts 500, 1000 and 1500 |
| `Generator.WordCountTexts` | story_generator.py:24 | In a prompt the three counts are written "500", "1000" and "1500" |
| `Generator.AutoPromptMentions` | story_generator.py:47-56 | The auto prompt contains the decimal word count, the genre, the theme, the character and the setting |
| `Generator.AutoPromptCatalogLines` | story_generator.py:49-58 | The auto prompt contains the line "- Genre elements: " + the `", "`-join of the genre's elements, and likewise the line "- Theme focus: " for the theme |
| `Generator.ContinuationPromptMentions` | story_generator.py:65-84 | The continuation prompt contains "STORY BEGINNING:\n" followed at once by the opening, verbatim. It also contains the count, genre, theme, character and setting |
| `Generator.AnalysisPromptMentions` | story_generator.py:86-104 | The analysis prompt contains "STORY BEGINNING:\n" followed at once by the opening, and the count, genre, theme, character and setting |
| `Generator.PromptMentionsInputs` | story_generator.py:26-40 | In every mode the prompt contains the genre, theme, character, setting and decimal count. In `continue` and `analyze` mode it also carries the opening after "STORY BEGINNING:\n" |
| `Generator.AutoModeIgnoresBeginning` | story_generator.py:26-40 | `auto` and every mode other than `continue` and `analyze` build exactly the auto prompt |
| `Generator.OpeningIrrelevantToAuto` | story_generator.py:26-40 | In those modes two calls that differ only in the opening build the same prompt |
| `Generator.OpeningModesIgnoreCatalog` | story_generator.py:65-104 | The `continue` and `analyze` prompts are the same for any two catalogs |
| `Generator.UnknownKeysGiveEmptyLines` | story_generator.py:49-58 | Each key is handled on its own. A genre absent from the catalog gives the empty line "- Genre elements: \n", and a theme absent from it gives "- Theme focus: \n", whatever the other key is |
| `Generator.KnownGenreElementsAppear` | story_generator.py:49-57 | Every element of a catalogued genre appears in the auto prompt |
| `Generator.KnownThemeElementsAppear` | story_generator.py:50-58 | Every element of a catalogued theme appears in the auto prompt |
| `Generator.StoryGenerator.constructor` | story_generator.py:5-7 | The engine gets the given provider, or the default when it is empty, and the key for that provider. The catalog is the shipped one and the counter starts at 0 |
| `Generator.StoryGenerator.GenerateStoryWithCustomBeginning` | story_generator.py:9-45 | For a known tier: the story is the engine's response to the prompt the mode selects, with the default token budget. The network log grows by exactly the requests that response needs, and the counter goes up by one |
| `StoryTemplates.ShippedGenreNames` | story_templates.py:1-37 | The genres are exactly Fantasy, Sci-Fi, Mystery, Adventure, Horror, Romance and Thriller |
| `StoryTemplates.ShippedGenresWellFormed` | story_templates.py:2-36 | Every genre has non-empty element, conflict and mood lists, and no phrase in them is empty |
| `StoryTemplates.ShippedThemeNames` | story_templates.py:39-64 | The themes are exactly Adventure, Redemption, Coming of Age, Good vs Evil, Survival, Love, Identity and Power |
| `StoryTemplates.ShippedThemesWellFormed` | story_templates.py:40-63 | Every theme has exactly four elements, none of them empty |
| `AiEngine.VendorOf` | ai_engine.py:19-24 | A provider name selects a vendor exactly when it is that vendor's name ("openai", "anthropic", "google") |
| `AiEngine.ResolveProvider` | ai_engine.py:14 | An empty or absent provider becomes "openai"; any other is kept; the result is never empty |
| `AiEngine.ApiKeyFor` | ai_engine.py:17-25 | Each vendor's provider gets that vendor's configured key; every other provider, "local" included, gets none |
| `AiEngine.EffectiveMaxTokens` | ai_engine.py:29 | An absent or zero budget becomes 2000; any other is kept; the result is never zero |
| `AiEngine.DemoText` | ai_engine.py:146-164 | The demo text starts with the fixed header and contains the prompt. Its length is the header's, plus the prompt's, plus the footer's |
| `AiEngine.DemoTextEchoesPrompt` | ai_engine.py:146-164 | Different prompts give different demo texts |
| `AiEngine.Plan` | ai_engine.py:27-48 | A request is sent iff the provider names a vendor and its key is present, non-empty and not the placeholder. The request carries that vendor, key, prompt and budget. Otherwise a vendor or "local" gives the demo text, and an unknown provider gives "Error: Invalid AI provider selected." |
| `AiEngine.VendorPath` | ai_engine.py:70 | Each vendor's text path ends in a name, and every index in it is followed by a name |
| `AiEngine.ExtractFollowsPath` | ai_engine.py:66-132 | On a success body, extraction yields the stripped string at the vendor's documented path exactly when that path leads to a string. Otherwise it raises, or for Google returns the format error |
| `AiEngine.GoogleExtractFollowsPath` | ai_engine.py:124-132 | The same for Google's `candidates[0].content.parts[0].text`, through its guards |
| `AiEngine.GoogleCandidateFollowsPath` | ai_engine.py:129-130 | Within a candidate: the stripped text when `content.parts[0].text` is a string, otherwise an exception or the format error |
| `AiEngine.GoogleUnexpectedShapes` | ai_engine.py:127-132 | These cases give exactly "Error: Unexpected response format from Google API": missing `candidates`, `candidates` of length zero, a first candidate without `content`, or a first candidate whose `content` has no `parts` |
| `AiEngine.GoogleCandidateEmptyParts` | ai_engine.py:129-130 | A candidate whose `parts` list is empty passes the guards and raises `IndexError` at `parts[0]` |
| `AiEngine.GoogleEmptyPartsRaises` | ai_engine.py:127-130 | The engine then returns "Error generating story: list index out of range" plus the API-key hint |
| `AiEngine.GoogleHttpErrorPrefersMessage` | ai_engine.py:134-144 | A Google HTTP error yields "Google API Error: " + the body's `error.message` when there is one, and "Google API Error: " + the generic error text otherwise |
| `AiEngine.HandlerOutcomes` | ai_engine.py:45-144 | A handler returns the stripped text when the vendor delivered one. Otherwise it raises, or for Google only returns the format error or a Google API error |
| `AiEngine.CatchAllIsErrorReport` | ai_engine.py:42-43 | The catch-all text starts with "Error generating story: " and ends with the API-key hint |
| `AiEngine.FinishOutcomes` | ai_engine.py:31-43 | Every reply ends in a string: the stripped generated text when delivered, otherwise an error report. For OpenAI and Anthropic every failure is the catch-all text of the escaping exception |
| `AiEngine.NoRequestNoNetwork` | ai_engine.py:38-48 | Without a vendor and a usable key the result does not depend on the network, and is the demo text or the invalid-provider error |
| `AiEngine.ShippedConfigNeverSends` | config.py:1-13 | With the keys as shipped, no provider ever sends a request |
| `AiEngine.Network.Post` | ai_engine.py:66 | A post appends the request to the log. It returns the network's answer to that request, given every request sent before it, so the same request may be answered differently each time |
| `AiEngine.AIStoryEngine.constructor` | ai_engine.py:12-15 | The provider is resolved with its default and the key chosen for it |
| `AiEngine.AIStoryEngine.GenerateStory` | ai_engine.py:27-43 | The returned text is `Response` of the fields, the arguments and the requests sent before the call. The network log grows by exactly the request `Plan` calls for, and by nothing on the demo or invalid paths |
| `AiEngine.AIStoryEngine.GenerateWith` | ai_engine.py:45-70 | With a usable key, one request is sent and its reply is finished into the text. Without one, the demo text is returned and nothing is sent |
| `Generator.AutoPrompt` | story_generator.py:47-63 | The auto prompt text; specified by `AutoPromptMentions`, `AutoPromptCatalogLines`, `KnownGenreElementsAppear`, `KnownThemeElementsAppear` and `UnknownKeysGiveEmptyLines` |
| `Generator.ContinuationPrompt` | story_generator.py:65-84 | The continuation prompt text; specified by `ContinuationPromptMentions` and `OpeningModesIgnoreCatalog` |
| `Generator.AnalysisPrompt` | story_generator.py:86-104 | The analysis prompt text; specified by `AnalysisPromptMentions` and `OpeningModesIgnoreCatalog` |
| `Generator.BuildPrompt` | story_generator.py:26-40 | The mode dispatch; specified by `PromptMentionsInputs`, `AutoModeIgnoresBeginning` and `OpeningIrrelevantToAuto` |
| `StoryTemplates.GenreElements` | story_generator.py:49-57 | The lenient genre lookup; specified by `KnownGenreElementsAppear` and `UnknownKeysGiveEmptyLines` |
| `StoryTemplates.ThemeElements` | story_generator.py:50-58 | The lenient theme lookup; specified by `KnownThemeElementsAppear` and `UnknownKeysGiveEmptyLines` |
| `AiEngine.Usable` | ai_engine.py:47 | The key check of each handler (also lines 74 and 101); specified by `Plan`'s send condition and by `ShippedConfigNeverSends` |
| `AiEngine.ErrorStatus` | ai_engine.py:67 | The statuses for which `raise_for_status` raises; specified by `HandlerOutcomes` and `FinishOutcomes` |
| `AiEngine.Extract` | ai_engine.py:69-70 | The body handling of the three handlers (also lines 96-97 and 124-132); specified by `ExtractFollowsPath` |
| `AiEngine.GoogleExtract` | ai_engine.py:124-132 | Google's guarded extraction; specified by `GoogleExtractFollowsPath`, `GoogleUnexpectedShapes` and `GoogleEmptyPartsRaises` |
| `AiEngine.GoogleCandidateText` | ai_engine.py:128-130 | Extraction within the first candidate; specified by `GoogleCandidateFollowsPath` and `GoogleCandidateEmptyParts` |
| `AiEngine.GoogleHttpError` | ai_engine.py:134-144 | The Google HTTP error text; specified by `GoogleHttpErrorPrefersMessage` |
| `AiEngine.Handler` | ai_engine.py:45-144 | A vendor handler after the request; specified by `HandlerOutcomes` |
| `AiEngine.CatchAll` | ai_engine.py:42-43 | The catch-all text; specified by `CatchAllIsErrorReport` |
| `AiEngine.Finish` | ai_engine.py:31-43 | The text returned once the vendor replied; specified by `FinishOutcomes` |
| `AiEngine.Response` | ai_engine.py:27-43 | All of `generate_story`; specified by `NoRequestNoNetwork`, by `Plan` and `FinishOutcomes`, and implemented by `AIStoryEngine.GenerateStory` |
| `Text.Strip` | ai_engine.py:70 | `str.strip()`; specified by `StripUnique`, `StripEnds`, `StripIdempotent` and `StripPadded` |
| `Text.Join` | story_generator.py:57 | `sep.join(xs)`; specified by `JoinContains`, `LabelledJoinContains` and `JoinLength` |
| `Text.Concat` | story_generator.py:52-61 | An f-string as the concatenation of its pieces; the prompt-mention lemmas rest on it |
| `PyJson.In` | ai_engine.py:127 | `k in x`; specified through `GoogleExtractFollowsPath`, `GoogleUnexpectedShapes` and `GoogleHttpErrorPrefersMessage` |
| `PyJson.Len` | ai_engine.py:127 | `len(x)`; specified through `GoogleExtractFollowsPath` and `GoogleUnexpectedShapes` |
| `PyJson.Display` | ai_engine.py:141 | `f"{v}"`; specified through `GoogleHttpErrorPrefersMessage` and `IntText` |
| `PyJson.ErrorText` | ai_engine.py:43 | `str(e)`; specified through `FinishOutcomes` and `GoogleEmptyPartsRaises` |
| `PyJson.Walk` | ai_engine.py:70 | Chained subscripts; specified by `WalkIsPath` |
| `PyJson.Subscript` | ai_engine.py:70 | A subscript succeeds exactly on a present dict key, or an in-range list or string index. It yields that member, and for a string the one-character string at that index |
| `PyJson.StripValue` | ai_engine.py:70 | `.strip()` succeeds exactly on a string and yields its strip |
| `PyJson.WalkIsPath` | ai_engine.py:97 | Along a path where each index is followed by a name, Python's chained subscripts succeed exactly when the JSON path exists, reaching the same value |
| `Text.SkipSpace` | ai_engine.py:70 | The start of the strip: the first non-space character, with only whitespace before it |
| `Text.SkipSpaceBack` | ai_engine.py:70 | The end of the strip: just after the last non-space character, with only whitespace after it |
| `Text.StripUnique` | ai_engine.py:97 | Any slice with only whitespace outside it and non-space characters at both ends is the strip |
| `Text.StripEnds` | ai_engine.py:130 | The strip neither starts nor ends with whitespace |
| `Text.StripIdempotent` | ai_engine.py:130 | Stripping twice is stripping once |
| `Text.StripPadded` | ai_engine.py:70 | Whitespace wrapped round a text that has no whitespace at its ends strips back to that text |
| `Text.JoinContains` | story_generator.py:57 | Every item of a join appears in it |
| `Text.LabelledJoinContains` | story_generator.py:58 | Every item appears in a labelled joined line |
| `Text.JoinLength` | story_generator.py:57 | A join's length is the items' total plus one separator per gap |
| `Text.Decimal` | story_generator.py:52 | The decimal text of a count is all digits, non-empty, and has no leading zero |
| `Text.DecimalRoundTrip` | story_generator.py:52 | Reading the decimal text back gives the count |
| `Text.DecimalInjective` | story_generator.py:52 | Different counts have different texts |
| `Text.IntText` | ai_engine.py:141 | The display of an int is non-empty, and is the decimal text for a non-negative one |

## Left out

- Transport:
  - HTTP headers, URLs, model names, temperature, `topP` and `topK` are not modelled. A `Request` holds only the vendor, key, prompt and token budget, and no claim is made about the request body.
  - The 60-second timeout, connection failures and DNS errors are one opaque `Unreachable` reply.
  - `requests` exception texts (`str(e)` of `HTTPError`, `JSONDecodeError`, timeouts) are opaque strings the reply carries.
- JSON decoding is not modelled: a reply carries its body already decoded, or the decoder's error text. JSON numbers are integers only; floats are left out.
- `PyJson.Display`: `f"{v}"` of a list or dict is shown only as `[...]` or `{...}` rather than Python's full `repr`. This matters only for a Google `error.message` that is not a scalar.
- The `TypeError` texts follow CPython 3.11 and later.
- gui.py (Tkinter widgets, the worker thread) and main.py are not part of this model.
- config.py is not modelled as a module. Its key values are `ShippedConfig`, passed to the engine as a `Config` value; `DEFAULT_PROVIDER` and `MAX_TOKENS` are constants.
- gui.py:332-350 checks that the character and setting are non-empty, and that an opening is given unless the mode is `auto`. These checks are not preconditions of `GenerateStoryWithCustomBeginning`: the generator does not depend on them, and its contract holds for every input.
- `Generator.StoryGenerator.GenerateStoryWithCustomBeginning`: a tier outside Short/Medium/Long raises `KeyError` at story_generator.py:24 before anything else happens. The model states this as a precondition and does not model the exception.
- The OpenAI and Anthropic error texts do not name the vendor; they are the generic catch-all.
- The tiers are the capitalised names Short, Medium and Long.
- Python's default arguments `ai_provider="openai"` (story_generator.py:5) and `continuation_mode="continue"` (story_generator.py:17) are not modelled as defaults. Callers of the constructor and of `GenerateStoryWithCustomBeginning` pass these values explicitly; the behaviour with the value passed is the same.
