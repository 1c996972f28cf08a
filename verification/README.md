# StreamDog core, modelled in Dafny

StreamDog watches one YouTube channel. When the channel is live, it starts
`streamlink` to record the broadcast into a `.ts` file in the configured output
directory. It finds out whether the channel is live in one of two ways: a
search on the YouTube Data API, or a headless browser that opens the channel's
`/live` page and looks for the live-chat frame. This project models the pure
decisions in `app.js`:

- `normalizeName` (`Names`): the character-substitution table that makes a
  title safe as a file or directory name, followed by `trim` (`Text`).
- `isEmpty` (`Emptiness`): the recursive emptiness test on JSON values. It is
  modelled as the specification predicate `Empty` and the method `IsEmpty`,
  which keeps the source's key loop with its `empty` flag and early return.
- The API and HTML detection decisions (`Detection`): what each strategy makes
  of the parsed API answer or of what the page showed.
- The `streamlink` command line and the rule that a rip starts only when
  detection found something (`Rip`).
- The start-up checks and the choice between one scan and endless scanning
  (`Startup`).

JavaScript values are the datatype `Json.Value`. An object keeps its keys in
`Object.keys` order and records whether it is a plain object. The module also
models truthiness, property reads and `${…}` string conversion, because the
program's branches depend on them. A call that would throw (destructuring the
first item when it is `null` or `undefined`) is modelled as "nothing detected".
In the program, the strategy's `.catch` turns that exception into `undefined`.

`app.js` has no retry loop, no backoff, no classification of `streamlink`
output lines and no remux step. `startStreamRip` settles on process exit, on
any standard-error data or on a spawn error, and only logs standard output.
The model has none of these either.

A template literal `${v}` throws a TypeError when `v` is an object with its
own `toString` property (or an array holding one), because such a property is
not callable and the inherited `valueOf` yields no primitive. The model keeps
that error path: `Json.ToJsString` answers `None`, and every strategy that hits
it detects nothing, as the program's `.catch` handlers make it. The same
holds for `path.resolve(outputDir)`, which throws when `outputDir` is truthy
but not a string, once a broadcast has been found: `Detection.Detect` then
detects nothing.

## Model

| member | source | states |
|---|---|---|
| `Text.ReplaceAll` | app.js:47-56 | a global one-character `replace` keeps the length and changes exactly the occurrences of the pattern, position by position |
| `Json.Truthy` | app.js:27 | a value is truthy unless it is `undefined`, `null`, `false`, `0` or `""`; every falsy test the program makes of a JSON value goes through it |
| `Json.Or` | app.js:81 | the logical or of two values is the first when it is truthy and the second otherwise |
| `Json.GetProp` | app.js:82 | reading or destructuring a named property finds an own property of an object and gives `undefined` on every other value |
| `Json.FirstElement` | app.js:85 | `items[0]` is the first element of a non-empty array and `undefined` for an empty one |
| `Json.ToJsString` | app.js:61-65 | `${v}` throws exactly when `v` is an object with its own `toString` property or an array holding such a value, and a string converts to itself |
| `Json.JoinFrom` | app.js:61-65 | joining an array from an index on throws exactly when one of the remaining elements cannot be converted |
| `Json.NatToString` | app.js:61 | the decimal digits of a natural number: only digits, no leading zero unless the number is 0, and they denote that number |
| `Json.IntToString` | app.js:61 | `${n}` for an integer: a minus sign exactly for a negative number, then decimal digits with no leading zero (unless the number is 0) that denote its magnitude |
| `Text.Trim` | app.js:58 | `trim` leaves an infix of the input with no whitespace at either end, and it cuts only whitespace off the front and the back |
| `Text.TrimEmptyIffWhitespace` | app.js:28 | a string trims to "" exactly when all of its characters are whitespace |
| `Text.TrimOfTrimmed` | app.js:58 | trimming a string with no whitespace at its ends changes nothing |
| `Text.TrimIdempotent` | app.js:58 | trimming twice is the same as trimming once |
| `Text.SkipForwardStops` | app.js:58 | the whitespace `trim` cuts from the front ends at the first character that is not whitespace |
| `Text.TrimKeepsSuffix` | app.js:58 | a suffix that neither starts nor ends with whitespace survives trimming |
| `Names.ReplaceChain` | app.js:47-57 | the ten `replace` calls in the program's order, and the period step for a directory, together equal one pass of the character table (`Substituted`) |
| `Names.Substituted` | app.js:47-57 | the replacements are one-for-one: same length, and each position goes through the table (a reserved character becomes its full-width look-alike and `"` becomes U+201D; `.` becomes `_` only for a directory; everything else is unchanged) |
| `Names.NormalizeName` | app.js:46-59 | `normalizeName` never makes a name longer and leaves no whitespace at either end |
| `Names.SafeCharIsSafe` | app.js:47-57 | a table output is never a reserved character (nor `.` for a directory), a second pass leaves it alone, and the table changes a character exactly when it is reserved (or a directory's `.`) |
| `Names.SubstitutedIsSafe` | app.js:47-57 | after the replacements no reserved character is left, and no `.` in a directory name |
| `Names.TrimKeepsSafe` | app.js:58 | trimming a safe name keeps it safe |
| `Names.NormalizeNameIsSafe` | app.js:46-59 | `normalizeName` output has none of the ten reserved characters (slash, backslash, colon, asterisk, question mark, double quote, less-than, greater-than, vertical bar, plus), no `.` when `isDir`, and no whitespace at either end |
| `Names.SubstitutedOfSafe` | app.js:47-57 | the replacements leave an already safe name unchanged |
| `Names.NormalizeNameIdempotent` | app.js:46-59 | applying `normalizeName` twice gives the same name as applying it once |
| `Names.SubstitutedAppend` | app.js:47-57 | the replacements work on each part of a concatenation separately |
| `Names.NormalizeNameKeepsSuffix` | app.js:46-59 | a safe ending with no whitespace at its ends, such as ".ts", is still there after `normalizeName`, and the name gets no longer |
| `Emptiness.IsEmpty` | app.js:26-45 | the loop over the keys with its early return computes `Empty`: falsy values, blank strings, arrays without elements, `{}`, and objects whose every value is empty |
| `Emptiness.Empty` | app.js:26-45 | the specification of `isEmpty`, case by case in the order of the program: falsy, string, array, object without keys, object with keys |
| `Emptiness.EmptyScalars` | app.js:27-44 | `null`, `undefined`, `false` and `0` are empty; a truthy number or `true` falls through to `undefined`, so it is not empty |
| `Emptiness.EmptyStringIffWhitespace` | app.js:28 | a string is empty exactly when every character is whitespace |
| `Emptiness.EmptyArrayIffNoElements` | app.js:29 | an array is empty exactly when it has length 0, so `[""]` is not empty although `""` is |
| `Emptiness.EmptyObject` | app.js:30-43 | `{}` is empty, a key-less object with another constructor is not, and an object with keys is empty exactly when every value is |
| `Emptiness.EmptyObjectOrderIrrelevant` | app.js:35-42 | the result of the key loop does not depend on the order of the keys |
| `Detection.VideoUrl` | app.js:65 | `getVideoUrl` fails exactly when `${videoId}` throws; otherwise the watch prefix followed by the video id as a string, which reads back after the prefix |
| `Detection.ChannelLiveUrl` | app.js:63 | `getChannelLiveUrl` fails exactly when `${channelId}` throws; otherwise the channel prefix, the channel id and `/live`, each in its place |
| `Detection.Items` | app.js:81-82 | missing response data gives `undefined` items; for an object it is the `items` property |
| `Json.LookupAbsent` | app.js:82 | reading a property that the object does not have gives `undefined` |
| `Detection.ApiCapture` | app.js:80-97 | for every response: nothing exactly when `items` is empty, the first item is `null` or `undefined`, its `id` or `snippet` is empty, or the conversion of `videoId` or of the file name throws; otherwise the watch URL of `id.videoId`, quality "best", the given directory and the title with ".ts" appended, or the video id when the title is falsy |
| `Detection.ApiCaptureOfFirstResult` | app.js:84-96 | for a search answer whose first item has the Data API shape (`kind`, `id.videoId`, `snippet.channelId`, `snippet.title`) with a channel id or title that is not blank, the capture is `https://www.youtube.com/watch?v=<id>` with quality "best" and file name `<title>.ts`, or `<id>.ts` when the title is ""; later results are ignored |
| `Detection.ApiCaptureBlankVideoId` | app.js:88-96 | the `kind` field keeps `id` from being empty, so a search item with the video id "" is still captured, with the bare watch URL and `<title>.ts` |
| `Detection.ApiCaptureWithoutItems` | app.js:81-84 | `items: []`, a response without `items` and a missing response body all yield nothing |
| `Detection.ApiCaptureBlankSnippet` | app.js:88 | a result whose snippet holds only a blank title counts as empty, so nothing is detected even though the video id is valid |
| `Detection.ApiCaptureThrowingTitle` | app.js:96-100 | a title object with its own `toString` makes the conversion of the file name throw, and the strategy detects nothing |
| `Detection.HtmlCapture` | app.js:104-134 | the page strategy yields a capture exactly when `${channelId}` converts, the chat frame is present and the title is non-empty; it records the channel's `/live` URL, not a watch URL, with quality "best", the given directory and `<title>.ts` |
| `Detection.Detect` | app.js:139 | with a string `outputDir`, the result is exactly what the strategy `useHtml` selects makes of its observation: the page strategy's capture, or the API capture when the request URL could be built and the request answered; a failed session, a failed request or an unbuildable URL gives nothing, and a non-string `outputDir` always gives nothing |
| `Detection.DetectShape` | app.js:139 | both strategies yield the same shape (quality "best", the output directory, a ".ts" file); the API gives a watch URL and the page strategy the channel's live URL; a failed request or browser session, an API URL that cannot be built, or a non-string `outputDir` detects nothing |
| `Rip.StreamRip` | app.js:68 | the command is `streamlink` run in the output directory with exactly four arguments: the URL, the quality, `-o ` followed by `normalizeName(filename)` in a single argument, and `--force`; the name in it is safe |
| `Rip.Dispatch` | app.js:140 | a rip is started exactly when detection produced a capture, and then from that capture |
| `Rip.Cycle` | app.js:139-140 | a cycle only ever runs `streamlink`, in the output directory |
| `Rip.NormalizeNameKeepsTs` | app.js:68 | normalizing a file name that ends in ".ts" gives a name that still ends in ".ts" |
| `Rip.StreamRipKeepsTs` | app.js:68 | for a ".ts" file name, the name given after `-o ` is `normalizeName(filename)`, safe, trimmed and ends in ".ts" |
| `Rip.CycleRipsOnlyDetected` | app.js:139-140 | a scan cycle runs `streamlink` only after a detection, on the detected URL with quality "best" in the output directory, with `normalizeName` of the detected file name, which is safe, trimmed and ends in ".ts" |
| `Rip.CycleRipsWhatStrategyFinds` | app.js:139-140 | with a string `outputDir`, a capture found by the chosen strategy (the page, or the API with a buildable URL and an answer) leads to `streamlink` on exactly that capture |
| `Startup.StrategyOf` | app.js:139 | the page strategy is used exactly when `useHtml` is truthy |
| `Startup.RunMode` | app.js:20-23 | the start-up checks and then the run mode; endless scanning is chosen only with a truthy interval |
| `Startup.RunModeGate` | app.js:20-22 | nothing runs when `channelId` is falsy, when `useHtml` and `apiKey` are both falsy, or when `outputDir` is falsy |
| `Startup.RunModeCycles` | app.js:149-150 | when the settings are present, a falsy `scanInterval` means exactly one cycle, and a truthy one means cycles forever paced by that interval |
| `Startup.StopReasonIsFirstMissing` | app.js:20-22 | the stop reason is the first failed check: the channel, then the API key (only when the API is the strategy), then the directory |
| `Startup.ApiScanHasKey` | app.js:21 | when the API strategy goes ahead, an API key is present |
| `Startup.ApiUrl` | app.js:61 | the request URL cannot be built exactly when one of the four settings it contains throws on conversion; otherwise it is the template text of their strings |
| `Startup.ApiUrlText` | app.js:61 | the URL starts with the search endpoint and `part=snippet`, the channel id, `&eventType=live&type=video&key=` and the key |
| `Startup.ApiUrlTextCarriesChannelAndKey` | app.js:61 | a channel id and a key without `&` read back out of the URL text as the values of `channelId` and `key` |
| `Startup.ApiUrlCarriesChannelAndKey` | app.js:61 | a channel id and a key without `&` read back out of the URL as the values of `channelId` and `key` |

## Left out

- `log.js` and every `multiLog` call: console and file output, the timestamp, `JSON.stringify` and the `uncaughtException` hook. They only log and do not affect any decision.
- Reading `config.json` (app.js:16): the configuration is passed in as a `Startup.Config` value.
- `path.resolve(outputDir)` (app.js:95, 131): for a string `outputDir` the resolved directory is an opaque `outdir` parameter; only the throw on a non-string `outputDir` is modelled.
- The axios request and its error branch (app.js:79, 98-101): the answer comes in as `Detection.ApiObservation`, and every error is `RequestFailed`, which detects nothing.
- The puppeteer session (app.js:108-136): what the page showed comes in as `Detection.PageObservation`. Closing the browser in `finally` and the viewport and user-agent settings are not modelled.
- `spawn` and its stdout, stderr, error and exit events (app.js:68-77): only the command line and its working directory are modelled. The race between these events, and the `.catch` that logs a failed rip (app.js:141), are not.
- `asyncPause` and the self-rescheduling `startScanInterval` (app.js:25, 143-147): only the choice between one cycle and endless cycles is modelled (`Startup.RunMode`). Timing is not.
- Json.Value: an object is a list of properties, so it may list a key twice, which no JavaScript object does. `Json.Lookup` reads the first such entry and `Emptiness.Empty` looks at all of them; the program's values come from `JSON.parse`, which keeps only the last.
- Json.Value: numbers are integers, so fractional numbers, `NaN` and `-0` are not represented. A `Number` is falsy exactly when it is 0.
- Json.GetProp: only an object's own properties are read. Properties inherited from a prototype (and string or array indices other than `[0]`) are not. The one inherited property the program reads, `obj.constructor` for a key-less object (app.js:33), is stood for by the `plain` flag of `Json.Value`.
- Json.FirstElement: on a string it takes the first Unicode scalar value. JavaScript takes the first UTF-16 code unit, and the two differ only for characters outside the Basic Multilingual Plane.
- Text.IsWhitespace: it is the fixed set of ECMAScript WhiteSpace and LineTerminator characters as of Unicode 15. Strings are sequences of Unicode scalar values, so lone surrogates are not represented.
- Json.ToJsString: numbers are written as integers, so the exponent notation JavaScript uses for very large or very small numbers is not modelled. `JSON.parse` rounds integers beyond 2^53 to the nearest double, while `Json.Number` keeps them exact, so `${n}` of such a number differs from the program's.
- How `streamlink` parses its arguments is not part of this model. The name travels as the single argument `-o <name>`, and the model states only what follows `-o ` in it, not the file name `streamlink` picks from it.
