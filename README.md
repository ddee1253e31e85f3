# sentry-feishu card rendering, in Dafny

This project models `handlers.js` of sentry-feishu. That file turns a Sentry
webhook body into an interactive Feishu (Lark) card: a JSON document that
has a header title and colour template, plus a list of elements. The
elements are `div` blocks of `lark_md` text, an `hr` divider, and an `action`
row that holds a "🔍 查看详情" button.

There are three renderers:

- `processError` renders one error event, with a code location and a SourceMap hint.
- `processIssue` renders an aggregated issue, with stats, priority and first/last-seen times.
- `processUnknown` renders a raw JSON dump as a fallback.

They use three lookups: `getTagValue`, `getEnvironmentInfo` and
`getPriorityIcon`.

The modules follow the file's structure:

- `Js` (js.dfy) — the JavaScript values that a decoded body holds, as `Json`. It also models the language operations the handlers use:
  - truthiness and `||`;
  - property reads, with and without `?.`;
  - `String(v)`, `===`, ASCII `toLowerCase`/`toUpperCase`;
  - `includes`, `join` and `substring`.

  A property read that JavaScript would reject with a `TypeError` gives `Threw` in an `Outcome`.
- `Card` (card.dfy) — the card document, and the kinds of body line with their one global order. It proves that an ordered list of kinds is determined by which kinds it holds.
- `Helpers` (helpers.dfy) — `getTagValue`, `getEnvironmentInfo`, `getPriorityIcon`, and `formatDate` as an opaque clock.
- `ErrorCard` (error_card.dfy) — `processError`, both as functions and as methods:
  - The functions state the card: the field fallbacks, the code location, the colour, the ordered body lines, the hint and the card.
  - The methods push lines and grow `errorLocation` step by step, as the source does. Each method is proved equal to its function.
- `IssueCard` (issue_card.dfy) — `processIssue` in the same two forms, plus a worked example of a complete card.
- `UnknownCard` (unknown_card.dfy) — `processUnknown`, over an abstract serializer.

The clock is `Helpers.Clock`. It holds the current time, as `toLocaleString()` prints it, and the Asia/Shanghai rendering of a date, both as parameters. The JSON serializer is a parameter of type `Json -> string`.

Behaviour of the code worth knowing, all of it modelled as written:

- **`processError` is not total.** It throws in these cases:
  - a truthy environment that is not a string (`toLowerCase`);
  - a last stack frame that is null or undefined when the metadata names no file (an object frame list whose `length` points past its properties gives undefined);
  - a code location that is neither a string nor an array (`includes`).
- **`processIssue` is not total either.** A truthy priority that is not a string throws at `toUpperCase`.
- **The SourceMap hint.** It is added when the location text *contains* "报错行数未知". So the placeholder always gets it, and so does a file name that happens to contain those words.
- **The issue project.** `issue.project ? slug || name : "Sentry Project"` gives the project's `name`, even `undefined`, when the project object has no slug. The "Sentry Project" default applies only when there is no project.

The throws of the first two items are `Threw` outcomes, and their conditions are proved exact: ErrorCard.ExtractErrorThrows and ErrorCard.ErrorCardThrows for processError, IssueCard.IssueThrows for processIssue. That holds up to the string conversion (Js.ToStr) of an object that carries its own `toString` key, which throws in JavaScript and is listed under "## Left out".

## Model

| member | source | states |
|---|---|---|
| Js.Or | handlers.js:74 | `a \|\| b` gives the first operand when it is truthy, else the second; the result is truthy iff either operand is |
| Js.ConcatTwice | handlers.js:114-119 | two successive `+=` on a value give the same string as one `+=` of both texts |
| Js.NatToStringRoundTrip | handlers.js:115 | the decimal text that `String(n)` (Js.ToStr) gives a line or column number reads back as that number, so distinct numbers render differently |
| Js.Lower | handlers.js:46 | `toLowerCase` keeps the length and lower-cases each ASCII letter in place |
| Js.Upper | handlers.js:318 | `toUpperCase` keeps the length and upper-cases each ASCII letter in place |
| Js.Take | handlers.js:408 | `substring(0, n)` is a prefix of length min(n, length) |
| Js.Includes | handlers.js:212 | `includes` is a substring test on strings and a `===` membership test on arrays; any other value throws, null and undefined at the property read, the rest at the call |
| Helpers.FindTag | handlers.js:27 | `find` picks the first tag for the key: earlier elements are not tags for it, and None means no element is |
| Helpers.GetTagValue | handlers.js:25-29 | null for a non-array or when no element is a tag for the key; otherwise item 1 of the first array whose item 0 is `===` the key (Js.StrictEquals: never true of two decoded arrays or objects) |
| Helpers.FirstTagWins | handlers.js:27-28 | a `[key, value]` pair before all others decides the value, whatever follows |
| Helpers.NonArrayTagSkipped | handlers.js:27 | an element that is not an array is skipped |
| Helpers.GetEnvironmentInfo | handlers.js:36-50 | production/prod map to red 生产环境, staging to orange, test/testing to yellow, development/dev to green, all after lower-casing; any other string maps to grey under its own name; a falsy value maps to grey 未知环境; a truthy non-string throws |
| Helpers.EnvironmentCaseInsensitive | handlers.js:46-48 | two names that lower-case alike and hit the table get the same entry |
| Helpers.EnvironmentGreyIffUnknown | handlers.js:47-48 | every string gets an entry, and it is grey exactly when its lower-case form is not in the table |
| Helpers.GetPriorityIcon | handlers.js:57-64 | 🔴, 🟡, 🟢 exactly for high, medium, low (as `String` renders the key); ⚪ exactly for everything else |
| Card.OrderedLayoutUnique | handlers.js:154-198 | two ordered lists of line kinds that hold the same kinds are equal |
| Card.PushIfKeepsOrder | handlers.js:164-198 | a conditional push of a kind that ranks after the list keeps the list ordered |
| ErrorCard.Appended | handlers.js:111-119 | the location after `+=` of a suffix renders as the old text followed by the suffix |
| ErrorCard.LastFrame | handlers.js:120-122 | a last frame exists exactly when `stacktrace.length > 0`; it is the last element of an array, and for an object with a numeric own `length` n its property "n-1" |
| ErrorCard.CodeLocation | handlers.js:111-139 | the location is always truthy; it throws exactly when the metadata names no file and a last frame exists but is null or undefined |
| ErrorCard.PlaceholderWhenNoFile | handlers.js:112-139 | the location is exactly the placeholder when neither the metadata nor the last frame names a file; otherwise it starts with the file named |
| ErrorCard.MetadataFileWins | handlers.js:112-119 | a metadata file decides the location whatever the frames hold: the file, `:lineno` when present, ` (function)` when present |
| ErrorCard.FrameIgnoresMetadata | handlers.js:120-135 | without a metadata file, no other metadata field affects the location |
| ErrorCard.ColumnNeedsLine | handlers.js:125-130 | a frame's column does not show without its line number |
| ErrorCard.LastFrameText | handlers.js:120-135 | without a metadata file, a frame that names a file gives the file, `:lineno` when present, `:colno` only after a line, and ` (function)` when present |
| ErrorCard.LengthOnlyFramesThrow | handlers.js:120-123 | an object frame list `{length: 1}` has an undefined last frame, and reading its file throws |
| ErrorCard.ObjectFramesFile | handlers.js:120-124 | an object frame list `{length: 1, 0: {filename: "a.js"}}` gives the location a.js |
| ErrorCard.BuildErrorLocation | handlers.js:111-139 | the `+=` steps on `errorLocation` compute CodeLocation of the metadata and the last frame |
| ErrorCard.ErrorTemplate | handlers.js:146-151 | red exactly when the environment is `===` "production" or "prod" (case-sensitive) or the level is "fatal" or "error"; orange otherwise |
| ErrorCard.ExtractErrorThrows | handlers.js:73-143 | extraction throws exactly for a non-string resolved environment, or for a null last frame without a metadata file |
| ErrorCard.DeriveFields | handlers.js:80-108 | environment, browser, os, project, level, message, type, culprit, platform and sdk always resolve to truthy values; the table entry and the location are the ones given |
| ErrorCard.LayoutInOrder | handlers.js:154-198 | the body kinds follow the order env, project, type, message, culprit, location, release, page URL, transaction, client, unhandled, tech, time |
| ErrorCard.LayoutMembers | handlers.js:154-198 | a kind is in the body exactly when its push condition holds |
| ErrorCard.ErrorLayout | handlers.js:154-198 | the body of a field set is ordered, and it holds a kind exactly when that line is present: release, page URL and transaction when truthy, unhandled when flagged, tech when the platform or sdk is truthy |
| ErrorCard.LocationLineSixth | handlers.js:154-161 | the code location is always the sixth line |
| ErrorCard.ErrorLayoutDetermined | handlers.js:154-198 | any ordered list holding exactly the present kinds is the body layout |
| ErrorCard.RenderLinesAt | handlers.js:154-198 | line i of the body is the text of the i-th kind |
| ErrorCard.ErrorCardOf | handlers.js:72-256 | a card that ErrorCard (processError as a function) rendered comes from a non-null event whose extraction succeeded, and is the rendering of those fields |
| ErrorCard.PlaceholderHasMarker | handlers.js:138-212 | the placeholder contains the marker that the hint test looks for |
| ErrorCard.ErrorCardShape | handlers.js:200-256 | title `{icon} Sentry Error [{name}]`; the body div first; then the hint div, exactly when the location includes the marker; then `hr`; then an action row with the one primary details button for `web_url`; the placeholder always gives four elements |
| ErrorCard.NoFileLocation | handlers.js:120-139 | with no metadata file and no frames, the location is the placeholder |
| ErrorCard.NoFileGivesHint | handlers.js:137-221 | with no metadata file and no frames, the location line shows the placeholder and the hint div is the second of four elements |
| ErrorCard.PlaceholderLine | handlers.js:160 | a placeholder location appears as a body line |
| ErrorCard.ErrorTemplateRule | handlers.js:97-151 | the card is red exactly for a production/prod environment or a fatal/error level; production is red whatever the level; a missing level is red |
| ErrorCard.ErrorHeaderEnvironment | handlers.js:241 | the title names the table entry of the resolved environment |
| ErrorCard.ErrorCardThrows | handlers.js:72-212 | processError throws exactly for a null or undefined event (at `metadata`), for a failed extraction, or for a location that is neither a string nor an array (at `includes`) |
| ErrorCard.ErrorFooter | handlers.js:223-238 | the card ends with `hr` and one action row whose single primary button opens `web_url` |
| ErrorCard.ExtractedFields | handlers.js:73-143 | extracted fields are DeriveFields of the environment entry and the code location |
| ErrorCard.UnhandledLineRule | handlers.js:142-184 | the unhandled line appears exactly when the `handled` tag is the string "no" or `exception.mechanism.handled` is `false` |
| ErrorCard.RenderPush | handlers.js:164-198 | rendering after a conditional push is the conditional append of that line |
| ErrorCard.ErrorLinesPushed | handlers.js:154-198 | the body lines are the six fixed lines followed by the conditional pushes, in source order |
| ErrorCard.BuildTechInfo | handlers.js:187-193 | the tech parts are the platform, then `sdk@version` or the sdk alone |
| ErrorCard.BuildErrorLines | handlers.js:154-198 | the pushes produce exactly ErrorLines |
| ErrorCard.PushTrailingLines | handlers.js:178-198 | the client, unhandled, tech and time pushes append exactly those lines under their conditions |
| ErrorCard.ExtractErrorFields | handlers.js:73-143 | reading the event step by step gives ExtractError, including its throws |
| ErrorCard.BuildErrorCard | handlers.js:145-256 | colour, body, hint and footer give RenderError |
| ErrorCard.ProcessError | handlers.js:72-257 | the whole method computes ErrorCard, including the throw on a null or undefined event |
| IssueCard.IssueMeta | handlers.js:267 | `metadata \|\| {}` is never null or undefined |
| IssueCard.IssueProject | handlers.js:270-272 | without a truthy project the name is "Sentry Project" |
| IssueCard.DeriveIssue | handlers.js:266-291 | count, userCount, priority, platform, sdk, level, type and culprit resolve to truthy values; firstSeen and lastSeen are the raw values; unhandled iff `isUnhandled` is truthy |
| IssueCard.IssueTemplate | handlers.js:294-295 | red exactly for level "fatal" or "error"; orange otherwise |
| IssueCard.LayoutInOrder | handlers.js:301-340 | the body kinds follow the order project, type, message, culprit, stats, priority, unhandled, tech, first seen, last seen |
| IssueCard.LayoutMembers | handlers.js:301-340 | a kind is in the body exactly when its push condition holds |
| IssueCard.IssueLayout | handlers.js:301-340 | the body of a field set is ordered and holds exactly the present kinds |
| IssueCard.IssueLayoutDetermined | handlers.js:301-340 | any ordered list holding exactly the present kinds is the body layout |
| IssueCard.TimestampsLast | handlers.js:334-340 | the body ends with the first-seen line, then the last-seen line when it is shown |
| IssueCard.RenderLinesAt | handlers.js:301-340 | line i of the body is the text of the i-th kind |
| IssueCard.IssueCardShape | handlers.js:343-383 | the elements are exactly the body div, `hr`, and one action row with the single primary details button for the url; title `🚨 Sentry Issue [{shortId}]`; template by level |
| IssueCard.IssueThrows | handlers.js:266-319 | IssueCard (processIssue as a function) throws exactly for a null or undefined issue (at `metadata`) and for a truthy non-string priority (at `toUpperCase`) |
| IssueCard.IssueCardOf | handlers.js:265-384 | a rendered card comes from a non-null issue and is the rendering of its derived fields |
| IssueCard.IssueCardRenders | handlers.js:265-384 | any non-null issue is rendered from its derived fields |
| IssueCard.IssueHeaderAndButton | handlers.js:274-377 | three elements: body, `hr`, and a button for `web_url`, or `permalink` when there is no web URL; the title names the short id |
| IssueCard.IssueTemplateRule | handlers.js:275-295 | red exactly when the defaulted level is fatal or error; a missing level is red |
| IssueCard.IssueTemplateOnlyLevel | handlers.js:294-295 | two issues with the same level get the same colour, whatever else they hold |
| IssueCard.IssueLinesPresent | handlers.js:283-340 | stats, priority, tech and first-seen lines are always present; the last-seen line exactly when `lastSeen` is truthy and not `===` `firstSeen`; the unhandled line exactly when `isUnhandled` is truthy |
| IssueCard.KindsPresent | handlers.js:309-340 | the condition for each optional line, in terms of the derived fields |
| IssueCard.IssueTimestamps | handlers.js:335-340 | the last body line is the first-seen time, or first-seen then last-seen when the latter is shown |
| IssueCard.RenderPush | handlers.js:309-340 | rendering after a conditional push is the conditional append of that line |
| IssueCard.IssueLinesPushed | handlers.js:301-340 | the body lines are the four fixed lines followed by the conditional pushes, in source order |
| IssueCard.BuildStatsLine | handlers.js:310-312 | the stats parts: the event count, then the user count |
| IssueCard.BuildTechInfo | handlers.js:328-330 | the tech parts: the platform, then the sdk |
| IssueCard.BuildIssueLines | handlers.js:301-319 | the pushes produce IssueLines, or throw at `toUpperCase` for a non-string priority |
| IssueCard.PushTrailingLines | handlers.js:321-340 | the unhandled, tech and timestamp pushes append exactly those lines under their conditions |
| IssueCard.ExtractIssueFields | handlers.js:266-291 | reading the issue step by step gives DeriveIssue |
| IssueCard.BuildIssueCard | handlers.js:293-383 | colour, body and footer give RenderIssue |
| IssueCard.ProcessIssue | handlers.js:265-384 | the whole method computes IssueCard, including its throws |
| IssueCard.ExampleIssueFields | handlers.js:266-291 | the example issue derives project web, type Error, platform javascript, sdk 未知SDK, count 5, users 3, priority high |
| IssueCard.ExampleIssueCard | handlers.js:301-383 | the example card has a red header for WEB-1 and exactly eight body lines, among them `发生 **5** 次 · 影响 **3** 个用户`, `🔴 优先级:** HIGH` and `javascript / 未知SDK` |
| UnknownCard.ProcessUnknown | handlers.js:391-414 | an interactive, wide, orange `🚨 Sentry 报警` card with one div: the notice, the serialized body truncated to 500 characters, `...` and the code fence; throws only for `undefined`, whose serialization has no `substring` |
| UnknownCard.UnknownDump | handlers.js:408 | the dump is a prefix of the serialized body, at most 500 characters long, and all of it when it is short enough; the card has exactly one div |
| UnknownCard.UnknownDumpTruncates | handlers.js:408 | bodies whose serializations agree on the first 500 characters give the same card |
| UnknownCard.ExampleUnknownCard | handlers.js:391-414 | a body serialized as `{}` gives exactly the document with the dump `{}...` in a json fence |

## Left out

- index.js is not part of this model. It holds an Express route, an axios POST to a fixed webhook URL, console logging and HTTP status codes, all of them I/O.
- The dispatcher that chooses `processError`, `processIssue` or `processUnknown` is not in handlers.js. The three entry points are modelled as they are.
- Helpers.FormatDate: the internals of `formatDate` are left out. They read the current time and format dates for a locale and time zone through `Date`. The model takes both renderings from a `Clock` parameter.
- UnknownCard.ProcessUnknown: `JSON.stringify(body, null, 2)` is a parameter, and its layout is not modelled. `substring` counts UTF-16 code units, while the model counts Dafny characters. The two differ for characters outside the Basic Multilingual Plane, such as most emoji.
- ErrorCard.LastFrame: an object frame list whose own `length` is a string other than plain decimal digits, or an array, counts as having no frames. JavaScript converts such a `length` to a number (" 3" is 3, [2] is 2) and may index the object.
- ErrorCard.BuildErrorLocation: shares the ErrorCard.LastFrame gap for a string or array `length`; every other frame list is read as the source reads it.
- ErrorCard.ExtractErrorThrows: its "exactly" holds up to the same ErrorCard.LastFrame gap.
- ErrorCard.ExtractErrorFields: shares the ErrorCard.LastFrame gap through BuildErrorLocation.
- ErrorCard.ProcessError: shares the ErrorCard.LastFrame gap through ExtractErrorFields.
- Js.ToStr: a decoded object that has its own `toString` key makes `String(v)` and template-literal conversion throw in JavaScript ("Cannot convert object to primitive value"), because that `toString` is not callable and `valueOf` returns the object. The model renders every object as "[object Object]" and never throws there.
- ErrorCard.ExtractErrorThrows: its "exactly" holds up to the Js.ToStr gap; a metadata file such as `{toString: 1}` with a line number throws at the `+=` of handlers.js:115 in JavaScript.
- ErrorCard.ErrorCardThrows: its "exactly" holds up to the Js.ToStr gap; any displayed field such as `project: {toString: 1}` throws in JavaScript when its line is built.
- IssueCard.IssueThrows: its "exactly" holds up to the Js.ToStr gap; a displayed field such as `culprit: {toString: 1}` throws in JavaScript when its line is built.
- Json: numbers are integers, so floats are not modelled. Property reads see only the decoded object's own fields, so prototype properties (a key "constructor", say) in `envMap[...]` or `priorityMap[...]` are not modelled.
- Js.Lower and Js.Upper map ASCII letters only. No table key contains a non-ASCII letter, though an input such as the Kelvin sign lower-cases to "k" in JavaScript.
- IssueCard.DeriveIssue: the source calls `formatDate(issue.lastSeen)` only when it pushes the last-seen line. The model computes that rendering with the other fields; since the clock is a pure parameter, the card is the same.
- `eventId`, `issueId` and `status` are read but never shown, so they are not modelled.
