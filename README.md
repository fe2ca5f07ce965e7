# Caption server: a Dafny model

`server.py` is a small webhook. It receives caption text on `POST /caption`,
looks for attendance hints, logs the caption and sends WhatsApp alerts. This
project models the part of it that makes decisions:

- **The keyword detector** `contains_keyword` (module `Keywords`). It lower-cases
  the caption and tries the eight phrases of `KEYWORDS` in list order. It
  returns the first phrase that occurs in the caption, or nothing. The loop is a
  method (`ContainsKeyword`), proved against the first-match function
  `FirstMatch`. The lemmas show that the answer is the phrase with the lowest
  list index, in both directions. They also show that, because "attendance"
  comes first, the four longer phrases that contain it are never reported.
- **The code extractor** `CODE_REGEX.search(text).group(1)`, with pattern
  `\b(\d{3,6})\b` (module `CodeScan`).
  - The search is written out the way the regular-expression engine runs it.
    At each start position, left to right, it checks `\b`, takes up to six
    digits greedily, and gives digits back one at a time until the closing `\b`
    holds or fewer than three are left.
  - It is proved equal to an independent definition, `IsCodeAt`: a run of three
    to six digits with no word character right before or right after it.
  - The search returns the leftmost such run; any run it returns is a whole
    maximal digit run.
  - No code is ever taken from a run shorter than three digits, longer than six
    digits, or touching a letter or `_`.
- **The request handler** `caption()` (module `CaptionServer`).
  - A `Server` object holds the configured key and two append-only sequences:
    `log` stands for the caption log file, and `sent` for the messages passed to
    `send_whatsapp`.
  - `Caption` is proved to return `Handle(...).response` and to append exactly
    `Handle(...).logged` to `log` and `Handle(...).alerts` to `sent`.
  - Lemmas about `Handle` cover each outcome:
    - preflight: 200 with an empty body;
    - key mismatch: 401;
    - blank caption: 400 `{"status":"empty"}`;
    - otherwise: one log entry `[ts] text`, then the keyword alert if a keyword
      matched, then the code alert if a code matched, and 200 `{"status":"ok"}`.
  - They also cover an example caption with a keyword and a code, for which the
    keyword reported is "attendance", not "mark your attendance".

Inputs that the source reads from the environment or the clock are parameters
here:
- the timestamp string;
- the `x-api-key` header value (`Option<string>`, since `headers.get` may give
  `None`);
- the configured `API_KEY` (`Option<string>`, since `os.getenv` may give `None`);
- the `text` field of the JSON body (`Option<string>`: `None` when the key is
  absent, which the source treats as `""`).

Characters are approximated by ASCII:
- `lower()` changes only `A`-`Z`.
- `strip()` removes only ASCII whitespace: tab, line feed, vertical tab, form
  feed, carriage return, 0x1C-0x1F and space.
- `\d` is `0`-`9`, and `\w` is ASCII letters, digits and `_`.

Python's versions of all of these are Unicode-aware; the model does not follow
them outside ASCII.

Behaviour worth knowing:
- The key check compares two optional values, so when no `API_KEY` is
  configured a request without the `x-api-key` header is admitted
  (`UnsetKeyAdmitsHeaderless`).
- A body that is not a JSON object, or whose `text` is not a string, makes `caption()`
  fail in ways it does not handle itself, so these paths are not modelled (see
  "Left out").
- `if kw:` in the source tests the returned phrase for truth. Every phrase is
  non-empty, so this is the same as "a phrase was found", which is how the
  model writes it (`KeywordIsNeverLongerAttendancePhrase` names the four
  possible answers).

## Model

| member | source | states |
|---|---|---|
| Wrappers.Option.GetOr | server.py:85 | `data.get("text", "")`: the value when the key is present, and the default `""` when it is absent |
| AsciiText.IsSpace | server.py:85 | the characters `strip()` removes are control characters or space, never word characters |
| AsciiText.IsDigit | server.py:22 | every character `\d` accepts has a digit value between 0 and 9, counted from `0` |
| AsciiText.IsWordChar | server.py:22 | every digit is a word character for `\b`, and word characters are ASCII |
| AsciiText.LowerChar | server.py:40 | the lowered character is never upper case; `A`-`Z` move by 32 and every other character is unchanged |
| AsciiText.Lower | server.py:40 | `text.lower()` keeps the length and lowers every character in place |
| AsciiText.LowerIdempotent | server.py:40 | lowering twice is the same as lowering once |
| AsciiText.LowerKeepsLowerCaseOccurrence | server.py:40-42 | a phrase without upper-case letters that occurs in the caption still occurs, at the same index, in the lowered caption |
| AsciiText.IsSubstring | server.py:42 | Python's `kw in t`: the empty phrase always occurs, and a phrase that occurs is no longer than the text |
| AsciiText.SubstringTrans | server.py:42 | the `in` test is transitive: a phrase inside a phrase that occurs in the text occurs in the text |
| AsciiText.StripStart | server.py:85 | the result is a suffix of the input, everything removed is whitespace, and the result does not start with whitespace |
| AsciiText.StripEnd | server.py:85 | the result is a prefix of the input, everything removed is whitespace, and the result does not end with whitespace |
| AsciiText.Strip | server.py:85 | `strip()` never lengthens the text, and its result neither starts nor ends with whitespace |
| AsciiText.StripRemovesOnlyEdges | server.py:85 | the input is leading whitespace, then the stripped text, then trailing whitespace |
| AsciiText.StripEmptyIff | server.py:85-88 | the stripped text is empty exactly when the input is all whitespace, so `if not text` fires exactly for blank captions |
| AsciiText.StripOfTrimmed | server.py:85 | text that neither starts nor ends with whitespace is left unchanged |
| AsciiText.StripIdempotent | server.py:85 | stripping twice is the same as stripping once |
| Keywords.Keyword | server.py:24-44 | the answer of `contains_keyword` over the eight phrases of `KEYWORDS`, in source order: a returned phrase is one of `KEYWORDS` and occurs in the lowered caption; nothing is returned exactly when no phrase of `KEYWORDS` occurs in it |
| Keywords.FirstMatch | server.py:41-44 | a returned phrase is one of the list and occurs in the text; nothing is returned exactly when no phrase of the list occurs |
| Keywords.FirstMatchIsLowest | server.py:41-44 | the returned phrase sits at an index where it occurs and no earlier phrase occurs |
| Keywords.LowestIsFirstMatch | server.py:41-44 | conversely, the phrase at the lowest occurring index is the one returned |
| Keywords.ContainsKeyword | server.py:39-44 | the loop over `KEYWORDS` on the lowered caption returns the lowest-index phrase that occurs in it, and returns nothing exactly when no phrase occurs |
| Keywords.LaterPhrasesContainAttendance | server.py:24-33 | "attendance code", "submit your attendance", "mark your attendance" and "fill the attendance" each contain the first entry, "attendance" |
| Keywords.KeywordIsNeverLongerAttendancePhrase | server.py:24-44 | the detector only ever answers "attendance", "attendence", "enter the code" or "the code is", and never one of the four longer attendance phrases |
| Keywords.AttendanceWins | server.py:24-44 | whenever "attendance" occurs in the lowered caption it is the answer, whatever else occurs |
| Keywords.KeywordIgnoresCase | server.py:40-42 | a caption and its lower-case form get the same answer, and the returned phrase occurs in the lowered caption |
| CodeScan.WordBoundary | server.py:22 | `\b` at the start or end of the caption holds exactly when the character next to it is a word character; it never holds between two digits or outside the caption |
| CodeScan.DigitRun | server.py:22 | the length of the maximal run of digits starting at a position: all digits, followed by the end or by a non-digit |
| CodeScan.Backtrack | server.py:22 | backtracking `\d{3,6}` before `\b` accepts a length between three and the digits taken at which `\b` holds, and fails only when no such length exists |
| CodeScan.MatchAt | server.py:22 | a match of the pattern at a start position is a standalone run of 3 to 6 digits there |
| CodeScan.MatchAtIsCode | server.py:22 | the pattern matches at a start position with length n exactly when a standalone run of n digits (3 to 6) starts there |
| CodeScan.SearchFrom | server.py:22 | `search` from a position returns a standalone code with no code at any earlier start position, and returns nothing only when no code starts at or after the position |
| CodeScan.Search | server.py:101 | `CODE_REGEX.search(text)` returns a standalone code with none at an earlier start position, and returns nothing exactly when the caption holds no code |
| CodeScan.FindCode | server.py:101-103 | `match.group(1)` exists exactly when the search matched, and is 3 to 6 digits |
| CodeScan.FindCodeIsLeftmost | server.py:101-103 | `group(1)` is found exactly when some standalone 3-6 digit run exists, and it is the text of the leftmost one |
| CodeScan.LeftmostCodeIsFound | server.py:101-103 | conversely, the leftmost standalone run is the code returned |
| CodeScan.CodeLengthIsDetermined | server.py:22 | at a given start there is at most one code length |
| CodeScan.CodeIsWholeRun | server.py:22 | a code that overlaps a maximal digit run is exactly that run |
| CodeScan.RejectedRunsGiveNoCode | server.py:22 | nothing is taken from a maximal digit run shorter than 3, longer than 6, or with a word character before or after it |
| CodeScan.TrailingCodeIsFound | server.py:22 | a caption with no digit before a final run of 3-6 digits, separated by a non-word character, yields that run |
| CodeScan.SevenDigitsGiveNoCode | server.py:22 | "1234567" yields no code |
| CodeScan.DigitsAfterLettersGiveNoCode | server.py:22 | "abc123" yields no code |
| CodeScan.DigitsBeforeUnderscoreGiveNoCode | server.py:22 | "123_x" yields no code |
| CodeScan.DigitsAfterDotGiveCode | server.py:22 | "12.345" yields "345" |
| CaptionServer.LogLine | server.py:91 | the log entry is `[`, the timestamp, `] ` and then the caption, with nothing else |
| CaptionServer.KeywordAlert | server.py:98 | the keyword alert starts with U+26A0 U+FE0F and is 32 characters longer than the keyword and the caption together |
| CaptionServer.CodeAlert | server.py:104 | the code alert starts with U+1F522, is 28 characters longer than the code, and ends with the code |
| CaptionServer.KeywordAlerts | server.py:96-98 | `if kw: send_whatsapp(...)`: at most one message, present exactly when a keyword is detected, and then it is the alert for that keyword |
| CaptionServer.CodeAlerts | server.py:101-104 | `if match: ... send_whatsapp(...)`: at most one message, present exactly when a code is found, and then it is the alert for that code |
| CaptionServer.Alerts | server.py:95-104 | at most two messages, and none exactly when neither a keyword nor a code is detected |
| CaptionServer.KeywordAlertCarries | server.py:98 | the keyword alert holds the phrase right after its 30-character prefix, then a line break, then the whole caption |
| CaptionServer.KeywordAlertInjective | server.py:98 | different keywords give different keyword alerts for the same caption |
| CaptionServer.CodeAlertInjective | server.py:104 | different codes give different code alerts |
| CaptionServer.AlertKindsDiffer | server.py:98-104 | a keyword alert is never equal to a code alert |
| CaptionServer.AlertsAreTheDetections | server.py:95-104 | a keyword alert is sent exactly for the detected keyword and a code alert exactly for the detected code, keyword alert first and code alert last |
| CaptionServer.Handle | server.py:75-106 | `caption()` sends nothing unless it has logged the caption; its other outcomes are stated by the lemmas below |
| CaptionServer.HandleOutcomes | server.py:75-106 | 200 exactly for a preflight or an authorised non-blank caption; 401 exactly for a key mismatch; one entry is logged exactly when the response is `{"status":"ok"}`, and it is `[ts] ` plus the stripped caption; alerts only after a log entry; at most one entry and two alerts; the response is always one of the four fixed ones (empty 200, 401 "Unauthorized", 400 `{"status":"empty"}`, 200 `{"status":"ok"}`) |
| CaptionServer.PreflightHasNoEffect | server.py:77-78 | `OPTIONS` gives 200 with an empty body and logs and sends nothing |
| CaptionServer.WrongKeyHasNoEffect | server.py:81-82 | a header that differs from the configured key gives 401 "Unauthorized" and logs and sends nothing |
| CaptionServer.UnsetKeyAdmitsHeaderless | server.py:81 | with no key configured, a request without the header passes the check |
| CaptionServer.BlankCaptionHasNoEffect | server.py:84-88 | for an authorised request, a missing or all-whitespace `text` gives 400 `{"status":"empty"}` and logs and sends nothing |
| CaptionServer.LoggedCaptionIsStripped | server.py:85-104 | the logged entry and the detectors both use the stripped caption, and stripping it again changes nothing |
| CaptionServer.ExampleKeyword | server.py:24-44 | the caption "Please mark your attendance now, code is 4821" gives the keyword "attendance" |
| CaptionServer.ExampleCode | server.py:101-103 | the same caption gives the code "4821" |
| CaptionServer.ExampleIsStripped | server.py:85 | the same caption is unchanged by stripping |
| CaptionServer.BothAlerts | server.py:95-104 | with both a keyword and a code, the alerts are the keyword alert followed by the code alert |
| CaptionServer.KeywordAndCodeEffect | server.py:85-106 | an authorised caption whose stripped text has a keyword and a code is answered `{"status":"ok"}`, logs one entry with the stripped text and sends the keyword alert, then the code alert, both built from the stripped text |
| CaptionServer.ExampleKeywordAndCode | server.py:75-106 | with the right key, the example caption logs one entry and sends the "attendance" alert, then the "4821" alert |
| CaptionServer.Server.constructor | server.py:12-20 | a server starts with the configured key, the existing log entries and nothing sent |
| CaptionServer.Server.AppendLog | server.py:57-59 | `append_log` adds exactly one entry at the end of the log and sends nothing |
| CaptionServer.Server.SendWhatsApp | server.py:46-55 | `send_whatsapp` adds exactly the message to what was sent, leaves the log alone, and never raises to the caller |
| CaptionServer.Server.AlertKeyword | server.py:95-98 | sends exactly the caption's keyword alert, if the detector finds a keyword, and leaves the log alone |
| CaptionServer.Server.AlertCode | server.py:100-104 | sends exactly the caption's code alert, if the search finds a code, and leaves the log alone |
| CaptionServer.Server.Record | server.py:90-104 | the normal path appends `[ts] text` to the log, then the caption's alerts, in order, to what was sent |
| CaptionServer.Server.Caption | server.py:75-106 | the response, the entries appended to the log and the messages sent are exactly those `Handle` gives for the request; earlier log entries and messages are untouched |

## Left out

- Flask routing, the `after_request` CORS headers and `app.run`: these are framework plumbing and constant headers. Methods other than `POST` and `OPTIONS` are refused by the framework before `caption()` runs.
- The Twilio client and the network call inside `send_whatsapp`: the model records each message handed to the sender. A failed delivery is swallowed by the source, so it changes nothing the caller sees; whether a delivery succeeded is not modelled.
- SendWhatsApp: the network call has no time-out. A delivery that hangs stalls the request and the alerts after it; the model's send always returns.
- Console output (`print` of the log line and of the delivery result): assuming the console accepts the text, it has no effect on the response, the log or the messages. A console that cannot encode the emoji would make the `print` inside the `except` clause of `send_whatsapp` raise; the model has no such failure.
- Real file I/O for the log: `log` is the sequence of `write` calls, one entry each, and the `"\n"` each write adds is implicit. A caption with an inner line break (`strip()` keeps it) makes its entry span several lines of the file, the later ones without a timestamp; the model does not split entries into file lines.
- A failing write makes the source raise. The model has no such failure, so it does not model a write error that stops the alerts.
- `datetime.now().strftime(...)`: the timestamp is a string parameter, and its `%Y-%m-%d %H:%M:%S` format is not checked.
- Environment reading: the configured key is a constructor parameter. The Twilio credentials and numbers only feed the network call.
- JSON parsing by `request.get_json()`: `text` is taken as already extracted. A body that is not a JSON object (`null`, a list or a bare string fails at `data.get`), or a `text` that is not a string, makes the source fail in ways `caption()` does not handle, so these paths are not modelled.
- Unicode behaviour of `lower()`, `strip()`, `\d` and `\b`: the model uses the ASCII approximation above.
- Concurrent requests: the model handles one request at a time.
