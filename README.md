# vertagger in Dafny

vertagger is a small web service that adds metadata to a newspaper article.
It asks a chat-completion model for the metadata: persons, organisations,
regions, keywords, a summary, a "userneed" and target audiences. It checks
the answer against two allow-lists, sends three feedback scores to a tracing
service and returns the answer with the caller's `ArtikelID` added. At
start-up it builds the model's system prompt from the `.txt` files of a
prompt directory.

This project models that core:

- `wrappers.dfy`: `Option` and `Result`.
- `text.dfy`: Python's `str.join` (`Join`) and the positions of its parts.
  It also holds the code-point order Python uses to compare strings (`Below`),
  proved to be a strict total order.
- `json.dfy`: a parsed JSON value. An object is its ordered list of members,
  because `json.loads` keeps document order. `Get` models `dict.get`, and
  `Set` models `d[k] = v`, which replaces a value in place or appends the key.
  A parsed object is taken to have distinct keys, as a Python `dict` does.
  When a document repeats a key, `json.loads` keeps the last value, but
  `Get` would return the first.
- `services.dfy`: the allow-lists `ValidUserneeds` and `ValidAudiences` and
  the class `ArticleService`. Its three constant fields are the completion
  client, the model name and the system prompt, which `__init__` sets once
  (`services.py` lines 44-53). It has three methods:
  - `PrepareInputText` builds the user message with the same loop as the
    source.
  - `ValidateAndScoreOutput` collects the feedback scores and returns the
    batch it sends, together with the outcome.
  - `ProcessArticle` runs the whole request.

  Each method is proved against specification functions: `InputText`,
  `UserneedCheck`, `AudienceCheck` and `Set`. Lemmas state what the source
  promises about those functions.
- Two scenario methods in `services.dfy`, `SuccessfulArticleExample` and
  `RateLimitExample`, call `ProcessArticle` as a client would. They show
  what its contract lets a caller conclude for a successful answer and for
  a rate limit. They do not model any function of the source.
- `startup.dfy`: `LoadPromptOnStartup`. The prompt directory is a list of
  `(name, content)` files in listing order. The function `SystemPrompt`
  specifies the method's result: keep the `.txt` files, sort them by name,
  join their texts with a blank line, and fail when there are none.

The validator sees an answer the way Python would:

- The validator receives the result of parsing the answer. `None` means the
  answer is not valid JSON, so the `is_json` score fails.
- An answer whose top level is not an object crashes on `data.get`
  (`AttributeError`).
- A list or object used as a `userneeds` value or as an audience is
  unhashable, so the membership test raises `TypeError`.
- An `audiences` value that is `null`, a number or a boolean cannot be
  iterated (`TypeError`).
- An `audiences` value that is a string is iterated character by character.
  An object is iterated by its keys.
- When the validator crashes, no score is sent. `process_article` then fails
  with an unhandled error, which the web framework reports as status 500.

## Model

| member | source | states |
|---|---|---|
| Text.JoinLength | src/vertagger/api/v1_0/services.py:194 | joining n parts gives the parts' total length plus n-1 separators |
| Text.JoinPart | src/vertagger/api/v1_0/services.py:194 | in a joined string, part i lies at its offset: after the earlier parts and one separator after each of them |
| Text.JoinSeparator | src/vertagger/api/v1_0/services.py:194 | every part but the last is followed by exactly one separator, and the next part starts right after it |
| Text.BelowIrreflexive | src/vertagger/main.py:54 | no name sorts before itself |
| Text.BelowTransitive | src/vertagger/main.py:54 | Python's string order is transitive |
| Text.BelowAsymmetric | src/vertagger/main.py:54 | two names never sort before each other |
| Text.BelowTotal | src/vertagger/main.py:54 | of two different names, one sorts before the other |
| JsonData.Get | src/vertagger/api/v1_0/services.py:89 | a key is found exactly when the object has it, and what is found is that key's member |
| JsonData.SetReadsBack | src/vertagger/api/v1_0/services.py:171 | after setting a key it reads back the new value, and every other key reads as before |
| JsonData.SetKeys | src/vertagger/api/v1_0/services.py:171 | setting an existing key keeps its position; a new key is appended at the end |
| Services.InputPartsLayout | src/vertagger/api/v1_0/services.py:182-192 | the parts are the header, then one block for each field of ArtikelID, Titel, Subtitel, Teaser, Text that has a non-empty value, in that order |
| Services.InputTextHeader | src/vertagger/api/v1_0/services.py:182-194 | the message always starts with the header, and it is exactly the header when none of the five fields has a value |
| Services.InputTextIdAndTitle | src/vertagger/api/v1_0/services.py:182-194 | with only ArtikelID and Titel set, the message is the header, the ArtikelID block and the Titel block, each pair separated by a blank line |
| Services.BlocksAgree | src/vertagger/api/v1_0/services.py:188-192 | two articles that agree on the listed fields produce the same blocks |
| Services.InputTextIgnoresOtherKeys | src/vertagger/api/v1_0/services.py:186-192 | keys outside the field order never change the message, and neither do empty values |
| Services.UserneedCheck | src/vertagger/api/v1_0/services.py:88-98 | the check raises exactly when the userneeds value is unhashable; otherwise is_valid_userneed passes exactly when the value is an allowed userneed, and a failing score names the rejected value |
| Services.MissingUserneedFails | src/vertagger/api/v1_0/services.py:89-98 | an answer without userneeds fails is_valid_userneed, and the reason names the value None |
| Services.InvalidAudiencesExact | src/vertagger/api/v1_0/services.py:104 | the rejected audiences keep their list order and hold every disallowed element as often as the list does, and no allowed element |
| Services.NoInvalidAudiences | src/vertagger/api/v1_0/services.py:104-106 | no audience is rejected exactly when every audience is allowed |
| Services.AudienceCheck | src/vertagger/api/v1_0/services.py:100-114 | the check raises exactly when audiences cannot be iterated or holds an unhashable element; otherwise is_valid_audience passes exactly when the list is non-empty and every audience is allowed; the reason is "none extracted" for an empty list and otherwise the rejected audiences |
| Services.MissingAudiencesFail | src/vertagger/api/v1_0/services.py:101-114 | an answer without audiences fails is_valid_audience with the reason that none were extracted |
| Services.OneInvalidAudience | src/vertagger/api/v1_0/services.py:104-114 | the list [allowed, unknown, allowed] fails is_valid_audience, and the reason names only the unknown audience |
| Services.ArticleService.PrepareInputText | src/vertagger/api/v1_0/services.py:175-194 | the loop produces the specified message: the header and the non-empty fields in order, joined by blank lines |
| Services.ArticleService.ValidateAndScoreOutput | src/vertagger/api/v1_0/services.py:55-119 | invalid JSON returns None and sends only the failed is_json score; a non-object answer or an unhashable or non-iterable value raises and sends nothing; otherwise the parsed object comes back unchanged and the batch is is_json, is_valid_userneed and is_valid_audience, in that order |
| Services.ArticleService.ProcessArticle | src/vertagger/api/v1_0/services.py:122-172 | a rate limit gives 429; an empty answer gives 500 before any validation; invalid JSON gives 500 after the is_json score; a validator crash (a non-object answer, an unhashable userneeds value, non-iterable audiences or an unhashable audience) is an unhandled error carrying that exception, and no score is sent; success happens exactly when the answer parses to an object that both checks accept, and the result is that object with artikel_id set to the request's ArtikelID and every other key unchanged |
| Startup.FragmentsEmpty | src/vertagger/main.py:54-57 | the sorted prompt list is empty exactly when the directory has no .txt file |
| Startup.LoadPromptOnStartup | src/vertagger/main.py:32-62 | the loop returns the specified prompt, and it fails exactly when the directory has no .txt file |
| Startup.PromptFilesCount | src/vertagger/main.py:54 | the glob keeps each .txt file as often as it is listed, and nothing else |
| Startup.InsertCount | src/vertagger/main.py:54 | inserting into a list adds exactly the inserted file |
| Startup.SortByNamePermutes | src/vertagger/main.py:54 | sorting is a permutation |
| Startup.InsertSorted | src/vertagger/main.py:54 | inserting a file with a new name into a sorted list keeps it sorted |
| Startup.SortByNameSorted | src/vertagger/main.py:54 | files with distinct names come out in ascending name order |
| Startup.SortedUnique | src/vertagger/main.py:54 | two sorted lists with the same files are equal |
| Startup.PromptFilesDistinct | src/vertagger/main.py:54 | the glob keeps distinct names distinct |
| Startup.PromptFilesAppend | src/vertagger/main.py:54 | the glob of two concatenated listings is the concatenation of their globs |
| Startup.FragmentsAreThePromptFiles | src/vertagger/main.py:54 | the sorted list is in ascending name order, has distinct names, and holds exactly the directory's .txt files |
| Startup.ListingOrderIrrelevant | src/vertagger/main.py:40-54 | the prompt does not depend on the order in which the directory lists its files, so a numeric prefix on each name controls the order |
| Startup.OtherFilesIgnored | src/vertagger/main.py:54 | adding a file that does not end in .txt anywhere in the listing leaves the prompt unchanged |
| Startup.FragmentPlacement | src/vertagger/main.py:59-62 | each file's text appears at its position in the prompt, followed by a blank line before the next file |
| Startup.PromptLength | src/vertagger/main.py:59-62 | the prompt is as long as all texts plus one blank-line separator between neighbours |
| Startup.SingleFragment | src/vertagger/main.py:59-62 | with a single .txt file the prompt is exactly that file's text |

## Left out

- The `temperature` setting is not modelled. It is passed to the completion client and affects nothing else.
- The completion client and JSON parsing are not modelled. The client is a function from the request to its outcome, and parsing is a function from the answer to an optional JSON value. The HTTP call, retries and the OpenAI library are not part of this model.
- The tracing service (the `@track` decorator and `update_current_trace`) is not modelled. The batch of scores it would receive is an out-parameter.
- Services.ArticleService.ValidateAndScoreOutput: the `is_json` score's name is taken to be `is_json` and its reason is omitted. The metric library that computes both is not part of this model.
- Services.UserneedCheck: the reason is the rejected value, not the formatted German message. That message prints the allow-list set, whose order Python does not fix.
- Services.AudienceCheck: the reason is the list of rejected audiences or `NoAudiences`, not the formatted message text.
- The JSON numbers 1.0 and 0.0 are modelled as a boolean `passed`.
- Services.ArticleService.PrepareInputText: article values are strings. Python's `f"{value}"` formatting of other types is not modelled, and neither are falsy non-string values such as `0`.
- Any exception from the client other than a rate limit is not modelled in detail. It becomes an unhandled failure.
- The `ArticleInput` and `ArticleOutput` schemas (`models.py`) are not modelled. The web framework validates them before and after the service runs. Neither are the endpoint wiring, API-key check and settings.
- Startup.LoadPromptOnStartup: the file system is not modelled. The directory is a list of files in listing order, and reading a file gives its stored text. A missing directory behaves like one with no `.txt` file. Names are compared by code point, as Python's `str` comparison does; this ignores the path prefix all the files share.
- Startup.LoadPromptOnStartup: the ordering and the `.txt` match are those of a POSIX file system. On Windows, both `sorted` on paths and `glob("*.txt")` ignore case, and that is not modelled.
- Startup.LoadPromptOnStartup: every matched entry is taken to be a readable file. A subdirectory named like `x.txt` also matches the glob, and `read_text` then raises; that case is not modelled.
- Startup.ListingOrderIrrelevant: the result assumes the file names are distinct, as they are in a real directory.
