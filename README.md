# Search Console daily report to Telegram — a Dafny model

The repository is a scheduled job. Once a day it asks the Google Search
Console analytics service about yesterday's traffic for each configured
property. It turns each answer into an HTML message and posts that message
to a Telegram chat. A second, on-demand endpoint checks the two JSON
configuration values, runs the same job, and on failure answers with a
diagnostic body that shows a short preview and the length of each value,
followed by the error message.

This project models the deterministic part of both entry points:

- `Env`: reading required and optional environment variables.
- `Html`: escaping untrusted text for Telegram's HTML parse mode.
- `NumberFormat`: grouping the digits of a count in threes.
- `Calendar`: computing "yesterday (UTC)" and rendering it as the
  `full-date` form `YYYY-MM-DD` of section 5.6 of RFC 3339.
- `SearchAnalytics`: turning an analytics response with optional fields
  into records with defaults.
- `Report`: the ranked sections and the per-site message template.
- `DailyJob`: the scheduled handler. It is a method with a loop. It
  returns the requests it posted, as a log.
- `RunNow`: the on-demand handler and its diagnostic body.
- `Text` and `Wrappers` hold the string and option helpers the others share.

The code outside this core is passed in as function values:

- the analytics client (`SearchApi`);
- the HTTPS post (`Services.post`);
- `JSON.parse` (`parseSites`, `parseCredential`, and `parseJson` in `RunNow`);
- `Date.parse` (`parseTime`: `None` stands for `NaN`);
- the two fixed-point formatters (`FloatFormat`).

The clock is two parameters: the millisecond reading used by the start-time
guard, and today's UTC date used for the report window. The source reads the
clock once for each.

A start time that does not parse does not hold the run back. In the source,
`Date.now() < NaN` is false, so the run goes on. `NotYetDue` models exactly
that.

## Model

| member | source | states |
|---|---|---|
| Env.MustGetEnv | netlify/gsc-daily.js:8-12 | succeeds exactly when the variable is set and non-empty, returning its value; otherwise fails with `Missing env var: ` followed by the name |
| Env.GetOrEmpty | netlify/functions/gsc-run-now.mjs:10-11 | an unset variable reads as the empty string, a set one as its value |
| Text.ReplaceAll | netlify/gsc-daily.js:97-99 | defines `replaceAll` with a one-character pattern (no contract of its own); `ReplaceAllAppend`, `ReplaceAllLength` and `ReplaceAllExcludes` state its properties |
| Text.NatToString | netlify/gsc-daily.js:105 | `String(n)` of a natural number: at least one decimal digit, and no leading zero unless `n` is 0 |
| Text.NatToStringValue | netlify/gsc-daily.js:105 | the digits of `NatToString(n)` denote `n` |
| Text.Join | netlify/gsc-daily.js:107 | defines `join` on one separator (no contract of its own); `SplitJoin` and `JoinUnlines` relate it to `split` and to line-terminated text |
| Html.EscapeHtml | netlify/gsc-daily.js:95-100 | defines the three chained replacements, `&` first (no contract of its own); the rows below state its properties |
| Html.EscapeHtmlSafe | netlify/gsc-daily.js:95-100 | the escaped text has no `<` or `>`, and every `&` in it begins `&amp;`, `&lt;` or `&gt;` |
| Html.UnescapeEscapeHtml | netlify/gsc-daily.js:95-100 | decoding the three entities recovers the input exactly, because `&` is replaced first |
| Html.EscapeHtmlIdentity | netlify/gsc-daily.js:95-100 | escaping leaves text without `&`, `<` and `>` unchanged |
| Html.EscapeHtmlLength | netlify/gsc-daily.js:95-100 | the output length is the input length plus 4 per `&` and 3 per `<` and per `>` |
| Html.EscapeHtmlPerChar | netlify/gsc-daily.js:95-100 | the three chained replacements equal replacing each character by its own escape |
| Html.EscapeHtmlExcludes | netlify/gsc-daily.js:95-100 | escaping introduces no character other than those of the entities; in particular no line break |
| Html.EscapeHtmlExample | netlify/gsc-daily.js:95-100 | a key such as `<script>&` escapes to `&lt;script&gt;&amp;`, with no double escaping |
| NumberFormat.FmtNum | netlify/gsc-daily.js:92 | defines `fmtNum` on naturals as the decimal digits grouped in threes (no contract of its own); the rows below state its properties |
| NumberFormat.GroupThousandsUngroup | netlify/gsc-daily.js:92 | deleting the commas from grouped digits gives the digits back |
| NumberFormat.GroupThousandsGroups | netlify/gsc-daily.js:92 | the groups between commas are digit strings; the first has 1 to 3 digits and begins the input, every later one has 3 |
| NumberFormat.FmtNumDigits | netlify/gsc-daily.js:92 | deleting the commas from `fmtNum(n)` yields the decimal digits of `n` |
| NumberFormat.FmtNumValue | netlify/gsc-daily.js:92 | the digits left after deleting the commas denote `n` |
| NumberFormat.FmtNumGroups | netlify/gsc-daily.js:92 | the first group has 1 to 3 digits and no leading zero unless `n` is 0; every later group has exactly 3 |
| NumberFormat.FmtNumChars | netlify/gsc-daily.js:92 | only digits and commas occur |
| NumberFormat.FmtNumExampleSmall | netlify/gsc-daily.js:92 | 0 renders as `0` and 1000 as `1,000` |
| NumberFormat.FmtNumExampleMillion | netlify/gsc-daily.js:92 | 1234567 renders as `1,234,567` |
| Calendar.Yesterday | netlify/gsc-daily.js:119-120 | yesterday is a valid date and comes before today's month and day in the year as `Date.UTC` reads it, where years 0 to 99 mean 1900 to 1999 |
| Calendar.YesterdayIsPredecessor | netlify/gsc-daily.js:119-120 | no valid date lies strictly between yesterday and the date `Date.UTC` was asked for |
| Calendar.YesterdayOfModernDate | netlify/gsc-daily.js:119-120 | from year 100 on, yesterday comes before today and no valid date lies strictly between them |
| Calendar.YesterdayTwoDigitYears | netlify/gsc-daily.js:119-120 | 0050-03-01 gives 1950-02-28 and 0000-01-01 gives 1899-12-31, while 0100-01-01 gives 0099-12-31 |
| Calendar.YesterdayExamples | netlify/gsc-daily.js:119-120 | March 1 rolls to February 29 in leap years (2024, 2000) and to February 28 otherwise (2023, 1900); January 1 rolls to December 31 of the year before |
| Calendar.IsoDate | netlify/gsc-daily.js:14-16 | the rendering is 10 characters, digits with dashes at positions 4 and 7 |
| Calendar.ParseIsoDateRoundTrip | netlify/gsc-daily.js:14-16 | reading the rendered date gives the date back |
| Calendar.IsoDateOfParse | netlify/gsc-daily.js:14-16 | every string that reads as a date is that date's rendering |
| Calendar.ReportDate | netlify/gsc-daily.js:119-122 | the report date is a 10-character `YYYY-MM-DD` that reads as yesterday |
| Calendar.ReportDateExample | netlify/gsc-daily.js:119-122 | on 2024-03-01 the report date is `2024-02-29` |
| SearchAnalytics.TotalsOf | netlify/gsc-daily.js:62-68 | the totals are all zero when there is no first row; otherwise each is the first row's field, 0 when missing |
| SearchAnalytics.TotalsOfComplete | netlify/gsc-daily.js:62-68 | a complete first row comes through unchanged, whatever follows it |
| SearchAnalytics.KeyOf | netlify/gsc-daily.js:83 | a missing or empty key list gives `(unknown)`; otherwise the first key |
| SearchAnalytics.RowOf | netlify/gsc-daily.js:82-88 | each field of the record is the row's field, 0 when missing, with the key as above |
| SearchAnalytics.TopOf | netlify/gsc-daily.js:82-88 | exactly one record per returned row, in order, and none when `rows` is absent |
| SearchAnalytics.TopOfComplete | netlify/gsc-daily.js:82-88 | complete rows come through unchanged and in order |
| SearchAnalytics.QueryTotals | netlify/gsc-daily.js:56-69 | a failed query propagates its error; a successful one yields the totals of the response |
| SearchAnalytics.QueryTop | netlify/gsc-daily.js:71-89 | a failed query propagates its error; a successful one yields the records of the response |
| Report.RankPrefix | netlify/gsc-daily.js:105 | defines the rank, `. ` and the escaped key that begin a ranked line (no contract of its own); `RankLineStartsWithKey` states it |
| Report.RankLine | netlify/gsc-daily.js:105 | defines one ranked line (no contract of its own); `RankLineStartsWithKey` and `RankLineNoNewline` state its shape |
| Report.RankLines | netlify/gsc-daily.js:104-106 | one line per item; line `i` is the ranked line of item `i` with rank `i + 1` |
| Report.BlockTop | netlify/gsc-daily.js:102-108 | defines `blockTop` (no contract of its own); the rows below state its two cases and its lines |
| Report.BlockTopEmpty | netlify/gsc-daily.js:103 | an empty list renders exactly `<b>title</b>\n(no data)\n` |
| Report.BlockTopEmptyLines | netlify/gsc-daily.js:103 | for a title without a line break: read line by line, an empty section is the title line, `(no data)` and the final line break |
| Report.BlockTopUnlines | netlify/gsc-daily.js:104-107 | a non-empty section is its title line and its ranked lines, each followed by a line break |
| Report.BlockTopLines | netlify/gsc-daily.js:104-107 | when neither the title, nor any key, nor the float renderings contain a line break: read line by line, a non-empty section is the title line, exactly one line per item in input order, then the final line break; line `i + 1` starts with `i+1. ` and the escaped key |
| Report.BlockTopEndsWithNewline | netlify/gsc-daily.js:102-107 | every section ends with a line break |
| Report.RankLineNoNewline | netlify/gsc-daily.js:105-106 | a ranked line is a single line when its key is |
| Report.RankLineStartsWithKey | netlify/gsc-daily.js:105-106 | a ranked line starts with its rank, `. ` and the escaped key |
| Report.TotalsSection | netlify/gsc-daily.js:135-139 | defines the totals block (no contract of its own); `MessageLayout` places it in the message |
| Report.MessageOf | netlify/gsc-daily.js:130-144 | defines the message template around its rendered pieces (no contract of its own); `MessageOfLayout` states its layout |
| Report.DailyMessage | netlify/gsc-daily.js:130-144 | defines the message for one site (no contract of its own); `MessageLayout` states its layout |
| Report.MessageOfLayout | netlify/gsc-daily.js:130-144 | the template starts with its title and holds its pieces in order, without overlap, ending with a line break |
| Report.MessageLayout | netlify/gsc-daily.js:130-144 | the message starts with its title and holds the escaped site URL, the date, the totals, then the query, page and country sections in that order, without overlap; it ends with a line break |
| DailyJob.TelegramRequest | netlify/gsc-daily.js:18-32 | defines the request `telegramSend` posts (no contract of its own); `TelegramRequestContents` states it |
| DailyJob.NotYetDue | netlify/gsc-daily.js:113 | defines the start-time guard, a start time that does not parse never holding the run back (no contract of its own); `GuardSendsNothing` states its effect |
| DailyJob.SiteMessage | netlify/gsc-daily.js:124-144 | defines one site's four queries and message (no contract of its own); `SiteMessageOk` states it |
| DailyJob.SendReports | netlify/gsc-daily.js:124-147 | defines the site loop as a function (no contract of its own); `SendReportsInOrder`, `SendReportsReturns` and `SendReportsThrows` state its properties, and `SendAll` is proved equal to it |
| DailyJob.DailyRun | netlify/gsc-daily.js:110-148 | defines the whole handler as a function (no contract of its own); `GuardSendsNothing` and `DailyRunConfiguration` state its properties, and `Handler` is proved equal to it |
| DailyJob.TelegramRequestContents | netlify/gsc-daily.js:18-32 | a post is prepared exactly when the bot token and chat id are set; it carries the text to that chat in HTML mode with link previews off; otherwise the error names the first missing variable |
| DailyJob.Delivery | netlify/gsc-daily.js:34-37 | a post succeeds exactly when a reply arrives with a status from 200 to 299 |
| DailyJob.SiteMessageOk | netlify/gsc-daily.js:124-144 | a site's message exists exactly when its four queries succeed, each for the one report date as start and end; it is built from their answers |
| DailyJob.BuildMessage | netlify/gsc-daily.js:125-144 | the four queries in order, then the message, with the first failure propagated |
| DailyJob.PrepareSite | netlify/gsc-daily.js:125-146 | a site's message and then the request that posts it |
| DailyJob.SendAll | netlify/gsc-daily.js:124-147 | the loop returns and logs exactly what the site-by-site run specifies |
| DailyJob.Handler | netlify/gsc-daily.js:110-148 | the handler's outcome and posted log are those of the whole run: guard, configuration, then the site loop |
| DailyJob.GuardSendsNothing | netlify/gsc-daily.js:113 | before the start time the handler returns and posts nothing |
| DailyJob.DailyRunConfiguration | netlify/gsc-daily.js:112-124 | past the guard, a configuration error throws before any post; a complete configuration with an iterable site list runs the site loop on the report date |
| DailyJob.DailyRunNotIterable | netlify/gsc-daily.js:115-124 | a site list that parses but cannot be iterated throws only at the loop, so a missing or unparsable credential is reported first; otherwise the loop's error is thrown, with no post |
| DailyJob.SendReportsInOrder | netlify/gsc-daily.js:124-147 | at most one post per site; post `i` is the request prepared for site `i`; every post but the last was accepted |
| DailyJob.SendReportsReturns | netlify/gsc-daily.js:124-147 | the run returns normally exactly when every site was posted and every post was accepted |
| DailyJob.SendReportsThrows | netlify/gsc-daily.js:124-147 | a run that throws was stopped by its last post, or by the first site whose request could not be prepared, with that cause's error |
| RunNow.Preview | netlify/functions/gsc-run-now.mjs:3-6 | the empty value previews as `(empty)`; any other preview has no line break and at most 80 characters |
| RunNow.PreviewOfNonEmpty | netlify/functions/gsc-run-now.mjs:5 | a non-empty preview is the first 40 characters (all of a shorter value) with each line break written `\n`; its length is that count plus one per line break |
| RunNow.PreviewOfShortLine | netlify/functions/gsc-run-now.mjs:3-6 | a value of at most 40 characters without line breaks is shown in full |
| RunNow.PreviewNoNewline | netlify/functions/gsc-run-now.mjs:3-6 | no preview contains a line break |
| RunNow.AbsentVariable | netlify/functions/gsc-run-now.mjs:22-23 | an unset variable previews as `(empty)` and has length 0 |
| RunNow.ValueReport | netlify/functions/gsc-run-now.mjs:29-32 | defines the preview line, the length line and the blank line of one value (no contract of its own); `ValueReportLines` states its lines |
| RunNow.DebugBody | netlify/functions/gsc-run-now.mjs:27-33 | defines the failure body (no contract of its own); `DebugBodyLines`, `DebugBodyEnds` and `DebugBodyRevealsOnlyPrefix` state its properties |
| RunNow.RunNowHandler | netlify/functions/gsc-run-now.mjs:8-36 | status 200 exactly when the site list parses, then the credential parses, then the daily job completes, and then the body is `OK`; every other run gets status 500 with the diagnostic body and the first failure's message |
| RunNow.DebugBodyLines | netlify/functions/gsc-run-now.mjs:25-34 | when the error message has no line break: read line by line, the body is `DEBUG`, each value's preview and exact length with a blank line after each pair, then `ERROR: ` and the message |
| RunNow.DebugBodyEnds | netlify/functions/gsc-run-now.mjs:28-33 | the body starts with `DEBUG\n` and ends with `ERROR: <message>\n` |
| RunNow.DebugBodyRevealsOnlyPrefix | netlify/functions/gsc-run-now.mjs:22-33 | for a fixed error message, values that agree on their first 40 characters and their length give the same body |

## Left out

- `fmtPct` and `fmtPos` (netlify/gsc-daily.js:91, 93) are `toFixed(2)` on IEEE doubles. They are supplied as functions in `FloatFormat`. The line-structure lemmas assume that their output contains no line break (`SingleLine`).
- Click-through rate and position are `real`; no floating-point rounding is modelled.
- FmtNum: covers natural numbers only. `toLocaleString` on fractional or negative values is float behaviour and is not modelled.
- The Google client, JWT authentication and `fetch` (netlify/gsc-daily.js:18-54, 57-60, 72-80) are network I/O. They are the function values `SearchApi` and `Services.post`. A network failure is an `Err` reply.
- `JSON.parse` and `Date.parse` are library calls. They are the functions `parseSites`, `parseCredential`, `parseJson` and `parseTime`.
- A site list that is valid JSON but not iterable (an object, a number, `null`) is given by `parseSites` as `NotIterable`, with the message of the `TypeError` that `for…of` throws. The engine's wording of that message is not modelled.
- A credential without `client_email` or `private_key` is left to the analytics function.
- `Date.now()` and `new Date()` read the clock. They are the parameters `nowMs` and `today`.
- `process.env` is a map from names to strings.
- `async`/`await` is sequencing only.
- Calendar.ReportDate: requires the report year to lie in 0000–9999. Outside that range `toISOString` writes an expanded six-digit year with a sign.
- DailyJob.Handler: carries the same precondition on the report year.
- String lengths and `slice` count UTF-16 code units in the source. Here they count Dafny characters. The two differ only outside the basic multilingual plane.
- RunNow.DebugBodyRevealsOnlyPrefix: holds for a fixed error message only. The message comes from `parseJson` or `runDaily` and may depend on the values themselves. A `JSON.parse` syntax error can quote part of its input (netlify/functions/gsc-run-now.mjs:14, 17, 33), so the `ERROR:` line may show characters of a value past the first 40. `parseJson` is a parameter, so the model cannot say what its messages contain.
- RunNowHandler: the error text is the thrown error's message. The fallback `err?.message || err`, which turns an error with an empty message into a string, is not modelled.
- QueryTop: trusts the service to honour `rowLimit`. Like the source, it does not truncate a longer answer itself.
- The `exports.config` cron schedule (netlify/gsc-daily.js:3-6) is platform configuration.
- The GET/POST wrapper `netlify/gsc-run-now.mjs` is not part of this model. It is a thin wrapper around the daily handler.
- The module `./gsc-daily.mjs` imported by `netlify/functions/gsc-run-now.mjs` is not part of this model. Its `runDaily` is the outcome parameter `runDaily` of `RunNowHandler`.
