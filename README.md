# Sefaria Jewish library tool server, modelled in Dafny

This is a model of the core of the Sefaria tool server. The server publishes four tools over the Model Context Protocol: `get_text`, `get_commentaries`, `search_texts` and `get_daily_learnings`. It answers each call by asking a Sefaria HTTP API and replying with exactly one text item.

The model has three modules, one per file:

- `PyJson` (`pyjson.dfy`) holds JSON as Python sees it after `response.json()`. JSON `null` and `None` are one value. When a key repeats in an object, the last member wins. The module also gives the Python operations the adapter applies to decoded values: truthiness, `k in x`, `x[k]`, `x[0]`, `len(x) > 0`, `x.get(k, d)`, iteration, `str.split`, `str.join` and `str()`. Each operation yields either a value or the exception Python raises, as a `Fault`. For example, `None.get` raises an AttributeError and `d['text']` on a dict without that key raises a KeyError.
- `SefariaHandler` (`handler.dfy`) models `sefaria_handler.py`:
  - URL building;
  - the Hebrew, English and commentary text lookups, each of which reads only `versions[0]`;
  - `get_text`, which is `str()` of the Hebrew text, so "not found" becomes the text `None`;
  - the weekly-portion scan over the calendar items;
  - `get_first_verse`;
  - the commentary-link filter.

  The two `for` loops of the source (`get_parasha_data`, `get_commentaries`) are methods with `while` loops. Each is proved equal to a recursive specification function, and the properties are proved about those functions.
- `Server` (`server.py`) models the tool catalogue returned by `handle_list_tools` and the dispatcher `handle_call_tool`. The dispatcher turns every call into one text item:
  - a missing required argument gives "Error: Missing ..." before any lookup is made;
  - an unknown tool name gives "Error: Unknown tool: <name>";
  - an exception raised inside a branch gives "Error: <message>";
  - in `search_texts`, falsy optional arguments are replaced by their defaults.

The network is a parameter: `Env.fetch` maps a URL to the decoded body, or to `None` when the request failed. Three other things are parameters too:

- the text Python gives a list or a dict under `str()` (`Env.strOf`);
- the message text of an exception (`Backend.message`);
- the search and calendar lookups (`Backend.searchTexts` and `Backend.dailyLearnings`).

Two behaviours of the source are worth noting:

- A text lookup whose response lacks an expected field, such as a version without `text` or a commentary without `title`, raises a KeyError (`sefaria_handler.py` lines 33-34, 73 and 86-87). It does not give an empty result. The model gives `Err(KeyError(...))`. When `get_text` meets it, the dispatcher turns it into an error text; `handle_call_tool` never calls the English or commentary lookups.
- `get_text` answers the four characters `None` when nothing is found, because it applies `str()` to the Hebrew text (`sefaria_handler.py` line 111).

## Model

| member | source | states |
|---|---|---|
| SefariaHandler.RequestUrl | src/sefaria_jewish_library/sefaria_handler.py:9-15 | The URL starts with base + "/" + endpoint. The reference follows verbatim exactly when it is truthy, then "?" + param exactly when the param is truthy. All four cases are stated. |
| SefariaHandler.EnglishUrlExtendsTextsUrl | src/sefaria_jewish_library/sefaria_handler.py:79-83 | The English lookup requests the Hebrew/commentary URL with "?version=english" appended. A falsy reference adds nothing to the texts endpoint. |
| SefariaHandler.TextsUrlInjective | src/sefaria_jewish_library/sefaria_handler.py:9-12 | Two different string references are requested at two different text URLs. |
| SefariaHandler.UnescapedRefReachesEnglishUrl | src/sefaria_jewish_library/sefaria_handler.py:11-15 | The reference is not escaped. For every string `ref`, the empty one included, a Hebrew lookup of `ref + "?version=english"` requests exactly the URL of the English lookup of `ref`. |
| SefariaHandler.HebrewTextIn | src/sefaria_jewish_library/sefaria_handler.py:66-77 | A falsy response, or a dict whose "versions" is absent or an empty list, str or dict, gives None. A "versions" of null, a bool or an int raises TypeError from `len()`. A truthy response that is not a container raises TypeError from `in`. A non-empty versions list gives `versions[0]['text']`, with its KeyError/TypeError when that fails. |
| SefariaHandler.EnglishTextIn | src/sefaria_jewish_library/sefaria_handler.py:79-91 | A falsy response, or a dict whose "versions" is absent or an empty list, str or dict, gives (None, None). A "versions" of null, a bool or an int raises TypeError from `len()`, and a truthy non-container response raises TypeError from `in`. When "versions" is a non-empty list, the result succeeds exactly when `versions[0]` is a dict holding both "versionTitle" and "text", and it is then that pair. |
| SefariaHandler.CommentaryTextIn | src/sefaria_jewish_library/sefaria_handler.py:26-38 | A falsy response, or a dict whose "versions" is absent or an empty list, str or dict, gives (None, None). A "versions" of null, a bool or an int raises TypeError from `len()`, and a truthy non-container response raises TypeError from `in`. When "versions" is a non-empty list, the result succeeds exactly when the response has "title" and `versions[0]` has "text", and it is then (title, text). |
| SefariaHandler.OnlyFirstVersionRead | src/sefaria_jewish_library/sefaria_handler.py:32-34 | All three lookups give the same result for two responses that agree except for a "versions" list with the same first entry. |
| SefariaHandler.GetText | src/sefaria_jewish_library/sefaria_handler.py:107-111 | "Not found" becomes Ok("None"). The result fails exactly when the Hebrew lookup raises. A str text is returned unchanged. |
| SefariaHandler.IsParashaItem | src/sefaria_jewish_library/sefaria_handler.py:49 | The title test raises AttributeError for `get` exactly when the item is not a dict, or when its "title" is present and not a dict. |
| SefariaHandler.FindParasha | src/sefaria_jewish_library/sefaria_handler.py:48-52 | The scan finds nothing exactly when every item is a dict whose "title" is absent, or is a dict whose "en" is absent or not 'Parashat Hashavua'. A non-dict item, or a non-dict "title", raises AttributeError for `get`. |
| SefariaHandler.FindParashaAppend | src/sefaria_jewish_library/sefaria_handler.py:48-52 | The scan over a + b is decided by a unless a finds nothing, in which case b decides it. |
| SefariaHandler.FindParashaFirstMatch | src/sefaria_jewish_library/sefaria_handler.py:48-52 | The first 'Parashat Hashavua' item, after items that do not match, gives its (ref, displayValue.en), or the AttributeError of a non-dict displayValue. Items after it are never read. |
| SefariaHandler.ParashaOf | src/sefaria_jewish_library/sefaria_handler.py:44-55 | Falsy data, or a dict without calendar_items, gives (None, None). A list of items gives the scan's match, or (None, None) when there is none, or the scan's fault. |
| SefariaHandler.GetParashaData | src/sefaria_jewish_library/sefaria_handler.py:40-55 | The loop returns exactly what ParashaOf gives for the calendar response. |
| SefariaHandler.FirstVerse | src/sefaria_jewish_library/sefaria_handler.py:57-64 | A falsy ref gives None. A str ref gives its longest prefix without '-', which ends at the first '-' or at the end of the ref. Any other ref raises AttributeError for `split`. |
| SefariaHandler.CommentaryRefs | src/sefaria_jewish_library/sefaria_handler.py:101-103 | The filter fails exactly when some link is not a dict. On success it gives one reference per commentary link. |
| SefariaHandler.CommentaryRefsSingle | src/sefaria_jewish_library/sefaria_handler.py:102-103 | A dict link contributes its sourceHeRef (None when absent) when its type is 'commentary', and nothing otherwise. |
| SefariaHandler.CommentaryRefsAppend | src/sefaria_jewish_library/sefaria_handler.py:99-105 | The filter over a + b is the filter over a followed by the filter over b. A fault comes from the earlier run. |
| SefariaHandler.CommentaryRefsAreSourceRefs | src/sefaria_jewish_library/sefaria_handler.py:99-105 | With dict links only, the filter succeeds. Each reference it returns is the sourceHeRef of a commentary link, and the sourceHeRef of every commentary link is among them. |
| SefariaHandler.CommentariesOf | src/sefaria_jewish_library/sefaria_handler.py:97-105 | A falsy response, or a dict without a "links" key, gives the empty list. A truthy response that is not a container raises TypeError from `in`. A list of links gives the filter over them. |
| SefariaHandler.GetCommentaries | src/sefaria_jewish_library/sefaria_handler.py:93-105 | The loop returns exactly what CommentariesOf gives for the related-content response. |
| PyJson.Split | src/sefaria_jewish_library/sefaria_handler.py:62 | `str.split` with one separator always gives at least one piece. The first piece is the longest prefix without the separator. |
| PyJson.SplitJoinRoundTrip | src/sefaria_jewish_library/server.py:180 | Splitting `sep.join(ss)` at sep gives ss back when ss is non-empty and no item holds sep. |
| PyJson.StrItems | src/sefaria_jewish_library/server.py:180 | `str.join` succeeds exactly when every item is a str. Otherwise it raises TypeError naming the first non-str item: every item before that index is a str. |
| Server.GetTextTool | src/sefaria_jewish_library/server.py:36-49 | The tool is named get_text and its schema requires exactly ["reference"]. |
| Server.GetCommentariesTool | src/sefaria_jewish_library/server.py:50-63 | The tool is named get_commentaries and its schema requires exactly ["reference"]. |
| Server.SearchTextsTool | src/sefaria_jewish_library/server.py:64-94 | The tool is named search_texts and its schema requires exactly ["query"]. |
| Server.DailyLearningsTool | src/sefaria_jewish_library/server.py:95-129 | The tool is named get_daily_learnings and its schema requires nothing. |
| Server.ListTools | src/sefaria_jewish_library/server.py:28-130 | There are exactly four tools, named get_text, get_commentaries, search_texts and get_daily_learnings in that order. They require ["reference"], ["reference"], ["query"] and []. |
| Server.CallGetText | src/sefaria_jewish_library/server.py:146-165 | The reply has one item. A falsy reference gives "Error: Missing reference parameter". |
| Server.CallGetCommentaries | src/sefaria_jewish_library/server.py:169-187 | The reply has one item. A falsy reference gives "Error: Missing  parameter", with the source's double space. |
| Server.CallSearchTexts | src/sefaria_jewish_library/server.py:189-217 | The reply has one item. A falsy query gives "Error: Missing query parameter". |
| Server.CallDailyLearnings | src/sefaria_jewish_library/server.py:219-240 | The reply always has exactly one item. |
| Server.HandleCallTool | src/sefaria_jewish_library/server.py:132-250 | Every call gives exactly one text item. An unknown name gives "Error: Unknown tool: name". Each missing required argument gives its own error text. |
| Server.NoArgumentsIsEmptyMap | src/sefaria_jewish_library/server.py:143-144 | Calling without arguments is the same as calling with the empty map. |
| Server.RequiredArgumentsChecked | src/sefaria_jewish_library/server.py:146-193 | For every argument the catalogue lists as required, a falsy value gives an "Error: Missing " text before any lookup. The network and the backends cannot change that text. |
| Server.MissingAnswer | src/sefaria_jewish_library/server.py:148-193 | A falsy reference for get_text or get_commentaries, or a falsy query for search_texts, is answered "Error: Missing " + "reference parameter", " parameter" or "query parameter" respectively. |
| Server.UnknownOutsideCatalogue | src/sefaria_jewish_library/server.py:242-250 | A name no catalogue tool carries gives "Error: Unknown tool: " + name. |
| Server.UnknownName | src/sefaria_jewish_library/server.py:242-250 | A name other than the four tool names gives "Error: Unknown tool: " + name. |
| Server.CatalogueNamesDispatched | src/sefaria_jewish_library/server.py:146-240 | Each catalogue name is dispatched to the branch of its own tool: get_text, get_commentaries, search_texts or get_daily_learnings. |
| Server.SearchFalsyOptionsTakeDefaults | src/sefaria_jewish_library/server.py:195-203 | Any falsy slop (None, False, 0, "", [] or {}) makes the same call as slop=2. Likewise any falsy size is the same as size=10 and any falsy filters the same as filters=None. An absent slop or size is the same as its default given explicitly. |
| Server.SearchOptionDefault | src/sefaria_jewish_library/server.py:195-203 | Giving one search option a falsy value makes the same call as giving it its default. |
| Server.SearchOptionAbsent | src/sefaria_jewish_library/server.py:195-203 | An absent search option makes the same call as that option given as None. |
| Server.SearchReceives | src/sefaria_jewish_library/server.py:191-211 | With a truthy query, the search receives the query and each truthy option exactly as given, whatever the other options are. Each falsy option is replaced by slop 2, filters None or size 10. The reply is the search's answer. |
| Server.SearchQueryOnly | src/sefaria_jewish_library/server.py:191-211 | A call carrying only a truthy query searches with slop 2, filters None and size 10. |
| Server.DailyLearningsDiasporaDefault | src/sefaria_jewish_library/server.py:221-234 | An absent diaspora is the same as diaspora=True. Any given value, false or null included, reaches the calendar lookup unchanged with the other options. |
| Server.CommentariesOnePerLine | src/sefaria_jewish_library/server.py:176-181 | Splitting the get_commentaries text at line breaks gives back the commentary references, one line per commentary link. |
| Server.CommentariesNoneIsEmptyText | src/sefaria_jewish_library/server.py:176-181 | When the lookup finds no commentary references, the get_commentaries reply is the empty text, not an error. |
| Server.BranchOutcomesBecomeText | src/sefaria_jewish_library/server.py:153-187 | Inside get_text and get_commentaries, a result gives its text and an exception gives "Error: " + its message. |

## Left out

- The HTTP request, `raise_for_status` and JSON decoding are not modelled. A failed request is `Env.fetch` answering None, which the handler turns into `None`.
- The bodies of `search_texts` and `get_daily_learnings` are not modelled. The handler file does not define them, so they are the abstract `Backend.searchTexts` and `Backend.dailyLearnings`, which answer a text or an error message. A name that fails to resolve at call time is covered as such an error message.
- `async`/`await`, the stdio MCP bootstrap in `main`, logging and `print` are not modelled. They do not affect the values returned.
- The text Python gives a list or dict under `str()`, and the wording of exception messages, vary between Python versions. They are the parameters `Env.strOf` and `Backend.message`.
- Floating-point arguments and values are outside the model. The source tests their truthiness (`slop` and `size`, `server.py` lines 196 and 202, so a `0.0` takes the default) and formats them with `str()` (the text at `sefaria_handler.py` line 111 and the reference at line 12).
- The per-argument `description` strings in the tool schemas are not modelled. The tool names, tool descriptions, argument types, defaults and required lists are modelled.
- `SEFARIA_API_BASE_URL` and `SEFARIA_API_URL` are not fixed. The base URL is `Env.base`, and `SEFARIA_API_URL` is never used.
- `demo.py` is a demonstration script and is not part of this model.
- The `type="text"` field of every reply item is constant, so `TextContent` carries only the text.
- `get_commentary_text`, `get_hebrew_text` and `get_english_text` are each the data-level function (`CommentaryTextIn`, `HebrewTextIn`, `EnglishTextIn`) applied to the response of their URL. Their contracts sit on those functions.
