# SecureSphere analyzers and feeds, modelled in Dafny

SecureSphere is a web front end that helps a user judge whether a URL or an
email text is trustworthy, shows a history and statistics of past URL checks,
hosts a community feed of scam reports, and draws a heatmap of scam activity
by region. Four of its React components hold deterministic logic; this project
lifts that logic out and proves what it promises.

- `url_checker.dfy` (module `UrlChecker`): the link-check verdict becomes an
  analysis record (only "unsafe" is dangerous), history rows become history
  items, the statistics reducer counts safe and dangerous items, the statistics
  tab rounds them to percentages, and the class `Checker` holds the panel's
  state with the submit guard sequence (blank input, unparsable URL, missing
  token, failed request).
- `email_analyzer.dfy` (module `EmailAnalyzer`): content must be longer than
  ten UTF-16 code units once trimmed; the classifier's label is spam when it reads
  "spam" in any case; the class `Analyzer` holds the panel's state and its
  submit flow, where every failure ends in one fixed message.
- `scam_reporting_hub.dfy` (module `ScamReportingHub`): the feed of reports
  (class `Hub`), submitting a draft, toggling a like, and editing the draft.
  The invariant "a liked report has at least one like" holds of the sample
  data and is kept by every handler.
- `scam_heatmap.dfy` (module `ScamHeatmap`): zoom buttons clamped to [10,100]
  in steps of 10, and the region panel the six hotspots open and close
  (class `Heatmap`).
- `text.dfy` (module `Text`): `String.prototype.trim`, string length in
  UTF-16 code units, ASCII lower-casing and decimal formatting.
  `analysis.dfy` (module `Analysis`): the analysis record both analyzers
  share. `base.dfy` (module `Base`): `Option` and `Result`.

Network replies, the stored access token, the current time and the URL
parser's verdict are parameters of the operations: the model never performs
input or output. Each component's handlers are methods of a class whose fields
are the component's `useState` values; each handler is modelled as running to
completion.

## Model

| member | source | states |
|---|---|---|
| `UrlChecker.CheckVerdict` | src/components/UrlChecker.tsx:98-116 | Status is dangerous exactly when `result` is the string "unsafe"; any other value, or none, is safe; never suspicious. Dangerous: title "Malicious URL Detected", description "This URL has been identified as potentially dangerous", confidence 90, threat type "Malicious content", exactly the three listed steps in order. Safe: title "Safe URL", description "This URL appears to be safe", confidence 100, no threat type, no steps. Source is "Our security systems"; the timestamp is `checkedAt` unless it is missing or empty, then the current time |
| `UrlChecker.OrElse` | src/components/UrlChecker.tsx:109 | JavaScript `s \|\| fallback` on an optional string: a present, non-empty string wins, otherwise the fallback |
| `UrlChecker.IsUnsafe` | src/components/UrlChecker.tsx:98 | A strict comparison: the result is unsafe exactly when the field, read with the empty string as fallback, is the exact string "unsafe" |
| `UrlChecker.HasToken` | src/components/UrlChecker.tsx:76-79 | `!token` fails exactly when the stored token, read with the empty string as fallback, is empty: a missing and an empty token are both absent |
| `UrlChecker.AnalyzeUrl` | src/components/UrlChecker.tsx:75-121 | With no token (missing or empty) the result is the error "Authentication required. Please login." whatever the reply; otherwise a record exactly when the reply is a parsed body, and that record is the verdict mapping of it; a non-ok status gives "API request failed with status N"; a thrown error passes its own message on |
| `UrlChecker.ToHistoryItem` | src/components/UrlChecker.tsx:142-148 | A history item is dangerous exactly when its row's result is "unsafe", never suspicious, and has a threat type ("Malicious content") exactly when dangerous; URL and timestamp are copied; the id is the row's stored id when that is present and non-empty, else a generated id |
| `UrlChecker.FormatHistory` | src/components/UrlChecker.tsx:140-149 | The mapped history has one item per row in the same order, each the mapping of its row, and holds no suspicious item |
| `UrlChecker.FormatHistoryStatus` | src/components/UrlChecker.tsx:145-147 | The i-th history item is dangerous, and has a threat type, exactly when the i-th row's result is "unsafe" |
| `UrlChecker.CountStatus` | src/components/UrlChecker.tsx:163-164 | A filter count is at most the history length, and is zero exactly when no item has that status |
| `UrlChecker.CountStatusConcat` | src/components/UrlChecker.tsx:163-164 | Counting the items of a concatenation with a given status gives the sum of the counts of the two parts |
| `UrlChecker.CountStatusIsSize` | src/components/UrlChecker.tsx:163-164 | The filter count equals the number of positions whose item has that status |
| `UrlChecker.CountsPartition` | src/components/UrlChecker.tsx:163-169 | The safe, suspicious and dangerous counts add up to the history length |
| `UrlChecker.ComputeStats` | src/components/UrlChecker.tsx:162-172 | totalScans is the history length; safeCount and dangerousCount are the filter counts of safe and dangerous items; suspiciousCount is 0; safe and dangerous counts each lie within the total and, for a history with no suspicious item, add up to it; lastScanned is the first item's timestamp when the history is non-empty and that timestamp is present and non-empty, otherwise the current time |
| `UrlChecker.RoundedPercent` | src/components/UrlChecker.tsx:532 | For a positive total, the percentage is the integer nearest to 100·count/total with halves rounded up; it lies in [0,100] when count ≤ total, is 0 for count 0 and 100 for count = total |
| `UrlChecker.DisplayedPercentages` | src/components/UrlChecker.tsx:527-548 | Each displayed percentage is its count's rounded percentage of the total (safe, suspicious, dangerous in that order); so the suspicious one is 0 when its count is 0, and safe and dangerous lie in [0,100] for statistics whose counts add up to the total |
| `UrlChecker.ComplementaryPercents` | src/components/UrlChecker.tsx:532-546 | Two counts that make up the total round to percentages that sum to 100 or 101, never less and never more |
| `UrlChecker.PercentagesSum` | src/components/UrlChecker.tsx:527-548 | For statistics of a non-empty history from the backend, each displayed percentage lies in [0,100] and the three sum to 100 or 101 |
| `UrlChecker.Checker.constructor` | src/components/UrlChecker.tsx:41-47 | The panel starts with empty input, no result, no error, no history, no statistics, nothing loading |
| `UrlChecker.Checker.SetInput` | src/components/UrlChecker.tsx:55-58 | Typing stores the text and clears the error; nothing else changes |
| `UrlChecker.Checker.ClearInput` | src/components/UrlChecker.tsx:60-64 | Clearing empties the input, the result and the error; nothing else changes |
| `UrlChecker.Checker.Submit` | src/components/UrlChecker.tsx:187-215 | Guards run in order: blank input after trimming sets "Please enter a URL to analyze", then an input the URL parser rejects sets the "valid URL" error, and in both cases the result and the analyzing flag are untouched; otherwise the result becomes the analysis record or the error becomes the failure's message, the other is cleared, and the analyzing flag is off afterwards; input, history and statistics are unchanged |
| `UrlChecker.Checker.LoadHistory` | src/components/UrlChecker.tsx:123-155 | Without a token nothing changes; a failed request keeps the old history; a successful one replaces it with the mapped rows; the loading flag is off afterwards; no suspicious item ever enters the history |
| `UrlChecker.Checker.RefreshStats` | src/components/UrlChecker.tsx:157-177 | Without a token the statistics are unchanged; otherwise they are recomputed from the history currently held, so their counts add up to the total |
| `Text.Trim` | src/components/UrlChecker.tsx:188 | `trim()` returns the slice of the string left once its leading and trailing trimmable characters are removed: only trimmable characters lie outside it, it is empty exactly when every character is trimmable, and a non-empty result starts and ends with a character trim keeps |
| `Text.IsTrimmable` | src/components/UrlChecker.tsx:188 | Among ASCII characters trim removes exactly the space and tab through carriage return; it removes no character beyond the Basic Multilingual Plane |
| `Text.TrimFramed` | src/components/EmailAnalyzer.tsx:49 | A string that starts and ends with characters trim keeps is its own trim |
| `Text.Utf16Length` | src/components/EmailAnalyzer.tsx:49 | `.length` counts UTF-16 code units: between the number of characters and twice that |
| `Text.Utf16LengthConcat` | src/components/EmailAnalyzer.tsx:49 | The length of a concatenation is the sum of the lengths |
| `Text.Utf16LengthSlice` | src/components/EmailAnalyzer.tsx:49 | A slice is never longer than the string it is cut from |
| `Text.Utf16LengthBmp` | src/components/EmailAnalyzer.tsx:49 | A string of characters inside the Basic Multilingual Plane has one code unit per character |
| `Text.Utf16LengthAstral` | src/components/EmailAnalyzer.tsx:49 | A string of characters beyond the Basic Multilingual Plane has two code units per character |
| `Text.ToLowerAscii` | src/components/EmailAnalyzer.tsx:68 | Lower-casing keeps the length and lower-cases each capital ASCII letter, leaving every other character |
| `Text.NatToDecimal` | src/components/UrlChecker.tsx:92 | The status number's text is a non-empty string of decimal digits whose decimal value is the number, with no leading zero unless the number is 0 |
| `EmailAnalyzer.ValidContent` | src/components/EmailAnalyzer.tsx:48-50 | Accepted content keeps something once trimmed; with the trim contract, content made only of whitespace and line terminators is rejected |
| `EmailAnalyzer.ValidContentLength` | src/components/EmailAnalyzer.tsx:48-50 | Accepted content is at least 11 UTF-16 code units long, so at least 6 characters, and its trimmed form starts with a character trim keeps |
| `EmailAnalyzer.TrimmedLength` | src/components/EmailAnalyzer.tsx:49 | A string that starts and ends with characters trim keeps has the same UTF-16 length once trimmed; so its trimmed length is one code unit per character when all its characters lie inside the Basic Multilingual Plane, and two per character when all lie beyond it |
| `EmailAnalyzer.TenCharactersRejected` | src/components/EmailAnalyzer.tsx:98-100 | Ten characters, which the error message calls enough, are rejected; eleven are accepted |
| `EmailAnalyzer.EmojiCountTwice` | src/components/EmailAnalyzer.tsx:48-50 | Six emoji, twelve code units, are accepted; five, ten code units, are rejected |
| `EmailAnalyzer.IsSpam` | src/components/EmailAnalyzer.tsx:68 | Only a four-character label can be spam |
| `EmailAnalyzer.SpamIgnoresCase` | src/components/EmailAnalyzer.tsx:68 | The spam test holds exactly of four-character strings reading s, p, a, m in any mix of cases |
| `EmailAnalyzer.KnownVerdicts` | src/components/EmailAnalyzer.tsx:25-26 | "Spam", "SPAM" and "spam" are spam; "Not Spam" and "spam " are not |
| `EmailAnalyzer.SpamVerdict` | src/components/EmailAnalyzer.tsx:68-90 | Dangerous exactly when the label is spam, otherwise safe, never suspicious. Spam: title "Spam Email Detected", description "This email has been identified as spam with high confidence.", threat type "Spam", exactly the four listed steps in order. Not spam: title "Legitimate Email", description "This email appears to be safe and not spam.", no threat type, an empty step list. Confidence 95 and source "Spam ML API" either way |
| `EmailAnalyzer.AnalyzeEmail` | src/components/EmailAnalyzer.tsx:52-95 | A record exactly when the request succeeded and the reply carries a string label, and then it is that label's verdict; a reply without a label is a failure |
| `EmailAnalyzer.Analyzer.constructor` | src/components/EmailAnalyzer.tsx:30-33 | The panel starts with empty input, no result, no error, not analyzing |
| `EmailAnalyzer.Analyzer.SetInput` | src/components/EmailAnalyzer.tsx:35-40 | Typing stores the text and clears the error |
| `EmailAnalyzer.Analyzer.ClearInput` | src/components/EmailAnalyzer.tsx:42-46 | Clearing empties the input, the result and the error |
| `EmailAnalyzer.Analyzer.RunAnalysis` | src/components/EmailAnalyzer.tsx:103-114 | After validation the request runs: success sets the record and clears the error, every failure clears the result and sets "Failed to analyze email content. Please try again later.", and the analyzing flag is off afterwards; the input is unchanged |
| `EmailAnalyzer.Analyzer.Submit` | src/components/EmailAnalyzer.tsx:97-115 | Invalid content sets the validation error and leaves result and analyzing flag untouched; otherwise success sets the record and clears the error, every failure clears the result and sets "Failed to analyze email content. Please try again later.", and the analyzing flag is off afterwards |
| `ScamReportingHub.ToggleReport` | src/components/ScamReportingHub.tsx:277-284 | A report with another id is returned unchanged; the matching report flips its liked flag, loses one like if it was liked or gains one if not, and keeps every other field |
| `ScamReportingHub.ToggleLikeIn` | src/components/ScamReportingHub.tsx:276-285 | Same length and order; reports with another id unchanged; every report with the id flips its flag and moves its counter by one, other fields kept |
| `ScamReportingHub.ToggleTwiceRestores` | src/components/ScamReportingHub.tsx:281-282 | Toggling the same id twice gives back the original feed |
| `ScamReportingHub.ToggleAbsentId` | src/components/ScamReportingHub.tsx:276-285 | Toggling an id that no report carries leaves the feed unchanged |
| `ScamReportingHub.TogglePreservesLikes` | src/components/ScamReportingHub.tsx:277-283 | If every liked report has at least one like (and no counter is negative), the same holds after a toggle |
| `ScamReportingHub.NewReport` | src/components/ScamReportingHub.tsx:250-264 | The submitted report copies title, description, scam type and images from the draft, carries the fresh id, the current user and "Just now", and starts with 0 likes, 0 comments, not liked |
| `ScamReportingHub.SubmitPreservesLikes` | src/components/ScamReportingHub.tsx:261-265 | Prepending a submitted report keeps the like invariant |
| `ScamReportingHub.SeedReports` | src/components/ScamReportingHub.tsx:54-216 | The feed starts with ten sample reports |
| `ScamReportingHub.SeedLikeConsistent` | src/components/ScamReportingHub.tsx:54-216 | The sample reports satisfy the like invariant (the liked ones have 45 and 19 likes) |
| `ScamReportingHub.Hub.constructor` | src/components/ScamReportingHub.tsx:53-223 | The feed starts with the sample reports, an empty draft and the dialog closed, with the like invariant holding |
| `ScamReportingHub.Hub.SetField` | src/components/ScamReportingHub.tsx:225-230 | Editing the title or the description changes only that draft field |
| `ScamReportingHub.Hub.SetScamType` | src/components/ScamReportingHub.tsx:232-234 | Choosing a scam type changes only the draft's scam type |
| `ScamReportingHub.Hub.UploadImages` | src/components/ScamReportingHub.tsx:236-246 | With no file list nothing changes; otherwise the new image references follow the existing ones, which keep their order; only the draft's images change |
| `ScamReportingHub.Hub.SetDialogOpen` | src/components/ScamReportingHub.tsx:314 | Opening or closing the dialog changes only the dialog flag |
| `ScamReportingHub.Hub.Submit` | src/components/ScamReportingHub.tsx:248-273 | Exactly one report, built from the old draft, is put at the head; the old reports follow in their order; the draft is reset to empty fields with no images and the dialog closes; the like invariant holds |
| `ScamReportingHub.Hub.ToggleLike` | src/components/ScamReportingHub.tsx:275-287 | The feed becomes its toggled form; the draft and the dialog are unchanged; the like invariant holds |
| `ScamHeatmap.HotspotIndex` | src/components/ScamHeatmap.tsx:176-222 | Each hotspot passes an index within the six-entry region table, and the row at that index names the region the hotspot is drawn over |
| `ScamHeatmap.HotspotsCoverRegions` | src/components/ScamHeatmap.tsx:44-87 | Distinct hotspots select distinct indices, and the k-th hotspot selects index k, so the six hotspots cover indices 0..5 |
| `ScamHeatmap.ZoomedIn` | src/components/ScamHeatmap.tsx:231 | Zoom-in never exceeds 100, adds 10 up to 90 and gives 100 from 90 on, and keeps a level on the [10,100] step-10 grid on it |
| `ScamHeatmap.ZoomedOut` | src/components/ScamHeatmap.tsx:238 | Zoom-out never goes below 10, subtracts 10 down to 20 and gives 10 from 20 down, and keeps a level on the grid on it |
| `ScamHeatmap.ZoomInThenOut` | src/components/ScamHeatmap.tsx:231-238 | For 10 ≤ z ≤ 90, zoom-in then zoom-out returns z |
| `ScamHeatmap.ZoomOutThenIn` | src/components/ScamHeatmap.tsx:231-238 | For 20 ≤ z ≤ 100, zoom-out then zoom-in returns z |
| `ScamHeatmap.ZoomEndsFixed` | src/components/ScamHeatmap.tsx:231-238 | Zoom-in at 100 and zoom-out at 10 leave the level unchanged |
| `ScamHeatmap.PressesKeepZoomValid` | src/components/ScamHeatmap.tsx:228-241 | From a level on the grid, any sequence of button presses ends on the grid: within [10,100] and a multiple of 10 |
| `ScamHeatmap.InitialZoomStaysValid` | src/components/ScamHeatmap.tsx:38 | From the initial level 50, any sequence of button presses keeps the zoom within [10,100] and a multiple of 10, matching the slider's step |
| `ScamHeatmap.Heatmap.constructor` | src/components/ScamHeatmap.tsx:38-41 | The heatmap starts at zoom 50 with no region selected |
| `ScamHeatmap.Heatmap.ZoomIn` | src/components/ScamHeatmap.tsx:228-234 | The zoom-in button applies the clamped step and leaves the selection alone; the zoom stays on the grid |
| `ScamHeatmap.Heatmap.ZoomOut` | src/components/ScamHeatmap.tsx:235-241 | The zoom-out button applies the clamped step and leaves the selection alone; the zoom stays on the grid |
| `ScamHeatmap.Heatmap.SelectRegion` | src/components/ScamHeatmap.tsx:89-91 | Clicking a region selects it; the zoom is unchanged |
| `ScamHeatmap.Heatmap.ClickHotspot` | src/components/ScamHeatmap.tsx:176-222 | A hotspot click selects that hotspot's row of the table, whose region is the one it is drawn over |
| `ScamHeatmap.Heatmap.CloseRegionInfo` | src/components/ScamHeatmap.tsx:93-95 | Closing clears the selection; the zoom is unchanged |

## Left out

- Network requests (link check, link history, spam classifier, chat assistant): each reply is an input value (`CheckReply`, `HistoryReply`, `SpamReply`). `src/components/AIChatbot.tsx` is a thin wrapper over a remote API and is not part of this model.
- URL parsing: `validateUrl` relies on the WHATWG URL Standard's basic URL parser (section 4.4), which is not part of this model; `Checker.Submit` takes its verdict as the parameter `urlParses`.
- The access token read from `localStorage` is the parameter `token`; a missing or empty token counts as absent, as `!token` does.
- Clocks and randomness: `new Date().toISOString()` is the parameter `now`; the `Math.random` fallback id of a history row is `GeneratedId` with its value left out; the `Date.now()` id of a new report is the parameter `id` of `Hub.Submit`. Blob URLs from `URL.createObjectURL` are opaque strings.
- Asynchrony: each handler runs to completion. The state during a pending request (analyzing flag on, result cleared), overlapping submissions, and the console logging are not modelled.
- Tabs and effects: the active tab, the `useEffect` that loads history or statistics when a tab opens, and the history refresh `handleSubmit` starts when the history tab is open are framework scheduling; `Checker.LoadHistory` and `Checker.RefreshStats` model what those calls do.
- `UrlChecker.RoundedPercent`: computes `Math.round((count / total) * 100)` on exact rationals, rounding halves up. Floating point can land just below a half (29/200·100 evaluates to 14.499999999999998, which rounds to 14 where the exact value rounds to 15), and that difference is not modelled. The `strokeDasharray` value is floating-point output and is not modelled.
- `UrlChecker.RoundedPercent`: requires a positive total. With no scans the code divides by zero and displays "NaN%"; that display is not modelled.
- `Text.ToLowerAscii`: lower-cases ASCII capitals only. For the one comparison it serves, equality with "spam", this is exact: the only non-ASCII characters whose full lower-case form contains an ASCII letter are U+0130 (which gives "i" followed by a combining dot, never ASCII-only) and U+212A KELVIN SIGN (which gives "k", not a letter of "spam").
- `UrlChecker.Checker.Submit`: the fallback message for a thrown value that is not an `Error` ("Failed to analyze URL. Please try again later.") is not modelled, because every value the request path throws is an `Error`.
- The browser's `required` check on the report title and description, which blocks form submission while either is empty, is browser behaviour; `Hub.Submit` models the handler it guards.
- `handleInputChange` writes `[name]: value` for any input name; only the two inputs wired to it (`title`, `description`) are modelled.
- The zoom slider's `onValueChange` depends on the slider honouring its min, max and step; only the buttons are modelled. The zoom state is a one-element array in the source and a single number here.
- The heatmap's scam-type and timeframe selects store values that nothing reads; they are not modelled. The presentation markup of every component is not modelled.
- The domain-authenticity check page (`src/components/checkDomain/CheckDomain.tsx`) is a placeholder with no logic, and link history is only read, never deleted; neither has anything to model.
- Strings are sequences of Unicode scalar values: a lone surrogate code unit, which a JavaScript string can hold, is not representable.
- Pages, layout, authentication forms, home sections and routing files are static markup and are not part of this model.
