# Daily YouTube summary fetcher, modelled in Dafny

`workflow/fetch_dify_summary.py` runs once a day. For each configured YouTube channel it:

1. resolves the channel's `@handle` page to its `UC…` channel id;
2. reads the channel's RSS feed and keeps the videos published today;
3. sends each video to a summarisation workflow;
4. writes one Markdown report per video, named `<date>-<channel>-<sanitized title>.md`.

A failure in one channel is logged and the next channel is tried. A failure in one video is logged and the next video is tried.

The model follows the program's own logic for:
- deletion of illegal filename characters;
- the channel-id scan;
- timestamp parsing and the daily filter (timestamp parsing covers the zero-padded ASCII forms only, as the Left out section below says);
- file name and report construction;
- the two nested catch-and-continue loops of `main`.

Everything the program asks of the outside world is a parameter. The Orchestrator `World` holds the page fetch, the feed, the summariser, whether a write succeeds, and today's UTC and local dates.

Modules, one per file:

- `Wrappers`: `Option` and `Result`.
- `Seqs`: `Flatten(f, xs)`, the output of a loop that appends `f(x)` for each `x`, with its slicing lemmas.
- `Filenames`: `sanitize_filename`.
- `ChannelResolver`: `resolve_channel_id`. The page request is a function returning `None` when the request raises, or the status code and text.
- `Timestamps`: `datetime.strptime(published, '%Y-%m-%dT%H:%M:%S%z').date()` for the fixed-width timestamp forms.
- `DailyFilter`: `get_today_videos`, as the `GetTodayVideos` method with its loop, proved against the function `TodayVideos`.
- `ReportWriter`: the file name, the defaults for missing fields, the keyword join and the Markdown template of `save_summary`.
- `Orchestrator`: `main`.
  - The run is observed as its sequence of events: the log lines it prints and the files it writes, in order.
  - `Run` and `ProcessVideos` are the nested loops.
  - `RunLog` and `Events` are the functions that specify them.

Two behaviours of the code worth knowing:

- A malformed timestamp skips the whole channel, not only that video. The `strptime` call at line 59 raises out of `get_today_videos`, and that call sits inside the channel-level `try` of `main` (lines 123-137).
- The date compared with today is the date written in the timestamp, not its UTC date. `.date()` on an offset-aware `datetime` keeps the calendar date in the timestamp's own offset, and it is compared with `datetime.utcnow().date()` unconverted. `Timestamps.ParseFormat` states exactly this: the parsed date does not depend on the time or the offset.

## Model

| member | source | states |
|---|---|---|
| Filenames.Sanitize | workflow/fetch_dify_summary.py:33-35 | the result contains none of the nine characters `\ / * ? : " < > \|` and is never longer than the title |
| Filenames.SanitizeDeletesOnlyIllegal | workflow/fetch_dify_summary.py:35 | the result is a subsequence of the title (order kept) and every legal character occurs in it as often as in the title |
| Filenames.SanitizeUnique | workflow/fetch_dify_summary.py:35 | any clean subsequence of the title that keeps every legal character is the sanitized title, so the result is exactly the title with those characters deleted |
| Filenames.SanitizeIdentity | workflow/fetch_dify_summary.py:35 | sanitizing leaves a title unchanged if and only if it has no illegal character |
| Filenames.SanitizeIdempotent | workflow/fetch_dify_summary.py:35 | sanitizing twice equals sanitizing once |
| Filenames.SanitizeAppend | workflow/fetch_dify_summary.py:35 | the substitution works character by character: sanitizing a concatenation concatenates the sanitized parts |
| Filenames.SanitizeExample | workflow/fetch_dify_summary.py:35 | "Test: Video?" becomes "Test Video" |
| ChannelResolver.FindMatch | workflow/fetch_dify_summary.py:44 | like `re.search`, returns the leftmost position where the whole pattern matches; no earlier position matches; None only when no position matches |
| ChannelResolver.ResolveChannelId | workflow/fetch_dify_summary.py:37-48 | a raised request fails with RequestFailed; a status other than 200 fails with PageNotOk before any scan; otherwise success if and only if the text has a match; success returns a 24-character `UC` id over `[0-9A-Za-z_-]`, captured by the first match; no match fails with IdNotFound |
| ChannelResolver.ResolveSingleMatch | workflow/fetch_dify_summary.py:43-46 | a 200 page whose text is one match returns that match's id |
| Timestamps.ParseTimestamp | workflow/fetch_dify_summary.py:59 | a date is returned only for a real calendar date: year 1 to 9999, month 1 to 12, day within its month with leap years counted; `None` stands for the `ValueError` that `strptime` raises |
| Timestamps.ParsedIsFormatted | workflow/fetch_dify_summary.py:59 | a timestamp parses only when it is exactly the written form of its date, then `T` or `t`, then a valid `HH:MM:SS` time of day (hour at most 23, second at most 59), then a valid `Z`, `±HH:MM` or `±HHMM` offset (hours at most 23), with nothing after it |
| Timestamps.TimePartAsWritten | workflow/fetch_dify_summary.py:59 | a time part that parses is a valid time of day and is exactly its zero-padded `HH:MM:SS` form |
| Timestamps.OffsetAsWritten | workflow/fetch_dify_summary.py:59 | an offset that parses is valid and is exactly its written form: `Z`, or a sign, two hour digits, an optional `:` and two minute digits |
| Timestamps.RejectsHour24 | workflow/fetch_dify_summary.py:59 | `2024-05-01T24:00:00Z` is malformed |
| Timestamps.ParseFormat | workflow/fetch_dify_summary.py:59 | a timestamp written as date `T` time offset parses to the written date, for every valid time of day and every offset (`Z`, `±HH:MM`, `±HHMM`); no conversion to UTC |
| Timestamps.DateAsWritten | workflow/fetch_dify_summary.py:59 | when a timestamp parses, the parsed date is valid and its first ten characters spell it as `YYYY-MM-DD` |
| Timestamps.ParseFormattedOffset | workflow/fetch_dify_summary.py:59 | every offset `%z` accepts in the modelled forms reads back as the same sign, hours, minutes and separator |
| Timestamps.FormatDateInjective | workflow/fetch_dify_summary.py:59-60 | two valid dates with the same `YYYY-MM-DD` text are equal, so comparing dates is comparing their written form |
| DailyFilter.TodayVideos | workflow/fetch_dify_summary.py:50-66 | a resolver error is passed on as `Unresolved` before the feed is read; otherwise the result is the filter over the resolved channel's feed, and every video returned is dated today |
| DailyFilter.FilterFrom | workflow/fetch_dify_summary.py:57-65 | the loop over the remaining entries keeps at most one record per entry, and fails only with a `MalformedTimestamp` error naming a timestamp that does not parse |
| DailyFilter.FilterFromDated | workflow/fetch_dify_summary.py:59-61 | every record the loop keeps carries a timestamp whose date is today |
| DailyFilter.GetTodayVideos | workflow/fetch_dify_summary.py:50-66 | the loop returns what `TodayVideos` specifies: the resolver's error, the first malformed timestamp's error, or the list of today's records |
| DailyFilter.KeepsExactlyToday | workflow/fetch_dify_summary.py:57-65 | a successful filter returns one record per entry dated today, in feed order (indices strictly increasing), each copying the entry's title, link and published text; an entry's index is selected if and only if it is dated today |
| DailyFilter.FailsOnMalformed | workflow/fetch_dify_summary.py:58-59 | the filter fails if and only if some entry's timestamp is malformed, and then with the first malformed timestamp in feed order; no partial list is returned |
| DailyFilter.TodayByDatePart | workflow/fetch_dify_summary.py:59-60 | for a well-formed timestamp, "dated today" holds exactly when its `YYYY-MM-DD` part spells today's date |
| ReportWriter.Filename | workflow/fetch_dify_summary.py:85-87 | the name starts with the date, ends with `.md`, and is between five characters and five characters plus the title's length longer than the date and channel together (only the title is sanitized) |
| ReportWriter.PathJoin | workflow/fetch_dify_summary.py:88 | the path ends with the file name; an absolute name replaces the directory; otherwise the path starts with the directory, then one added `/` unless the directory is empty or already ends with one |
| ReportWriter.FilenameCollision | workflow/fetch_dify_summary.py:85-87 | on the same day and channel, two titles give the same file name if and only if they sanitize to the same text |
| ReportWriter.FilenameIsClean | workflow/fetch_dify_summary.py:86-87 | with a date and channel name free of illegal characters, the whole file name is free of them |
| ReportWriter.FilenameExample | workflow/fetch_dify_summary.py:85-87 | "Test: Video?" in channel Demo on 2024-05-01 is saved as `2024-05-01-Demo-Test Video.md` |
| ReportWriter.Join | workflow/fetch_dify_summary.py:92 | joining no parts gives ""; otherwise the result starts with the first part and its length is the parts' total length plus one separator between each pair of neighbours |
| ReportWriter.SummaryText | workflow/fetch_dify_summary.py:90 | a missing `summary` gives ""; a present one is used unchanged |
| ReportWriter.KeywordsText | workflow/fetch_dify_summary.py:91-92 | missing or empty `keywords` give ""; otherwise the text starts with the first keyword and is as long as all keywords plus two characters per `, ` separator |
| ReportWriter.Render | workflow/fetch_dify_summary.py:94-105 | the document opens with the title heading line and ends with a newline |
| ReportWriter.JoinSnoc | workflow/fetch_dify_summary.py:92 | joining one more keyword appends the separator and that keyword |
| ReportWriter.KeywordsJoined | workflow/fetch_dify_summary.py:91-92 | the keywords `["a", "b"]` are written as `a, b` |
| ReportWriter.RenderLines | workflow/fetch_dify_summary.py:94-105 | the document's lines are the title heading, a blank line, the link line with the URL, the date line, a blank line, the summary heading, a blank line, the summary text's lines, a blank line, the keywords heading, the keyword text's lines and a final empty line |
| ReportWriter.MissingFieldsRender | workflow/fetch_dify_summary.py:90-105 | with no `summary` and no `keywords`, rendering does not fail: both headings are present, each followed by an empty body |
| Orchestrator.RequestFor | workflow/fetch_dify_summary.py:70-79 | the request carries the video link unchanged, the API key right after `Bearer `, and an endpoint that is the API base, the workflow id, then `/execute` (the URL built at line 27) |
| Orchestrator.VideoStep | workflow/fetch_dify_summary.py:130-133 | a video succeeds if and only if its summary is obtained and its report path can be written, and then yields that path and the rendered report; a failed summary gives its reason and no write is tried; otherwise the write failure names the path |
| Orchestrator.VideoEventsLength | workflow/fetch_dify_summary.py:129-135 | each video of the inner loop logs exactly two events |
| Orchestrator.ChannelEvents | workflow/fetch_dify_summary.py:123-137 | a channel never logs nothing: a failure to get its videos is exactly one channel error; with videos today it logs two events per video |
| Orchestrator.RunLog | workflow/fetch_dify_summary.py:118-137 | the run fails if and only if the configuration is incomplete; otherwise it logs at least one event per channel |
| Orchestrator.EventsLength | workflow/fetch_dify_summary.py:121-137 | the channel loop logs at least as many events as there are channels |
| Orchestrator.Run | workflow/fetch_dify_summary.py:118-137 | the loop's result is `RunLog`: a missing or empty API key, workflow id or output directory fails before any channel is processed, otherwise the events of every channel in order |
| Orchestrator.ProcessVideos | workflow/fetch_dify_summary.py:129-135 | the inner loop's events are each video's events in order: the summary start, then the saved file or the video's error |
| Orchestrator.ChannelsInOrder | workflow/fetch_dify_summary.py:121-137 | every channel is attempted in configuration order: the events are those of the earlier channels, then the channel's own (never none), then those of the later channels |
| Orchestrator.FailedChannelIsolated | workflow/fetch_dify_summary.py:122-137 | a channel whose videos cannot be fetched (unresolved id or malformed feed) contributes exactly one channel error to the run's events, between the unchanged events of the channels before it and those after it, so processing continues with the next channel |
| Orchestrator.FailedVideoIsolated | workflow/fetch_dify_summary.py:129-135 | a video whose summary or save fails logs its start and one video error, and the videos after it run as usual |
| Orchestrator.NoVideosNoFiles | workflow/fetch_dify_summary.py:124-126 | a channel with no video dated today logs one notice and writes nothing |
| Orchestrator.MalformedTimestampSkipsChannel | workflow/fetch_dify_summary.py:122-137 | a malformed timestamp anywhere in a channel's feed makes the channel log a single channel error naming the first malformed timestamp; no video of it is summarised |
| Orchestrator.VideoSaves | workflow/fetch_dify_summary.py:130-133 | a video writes a given file and content if and only if it was summarised, the path is its report path and the write succeeded |
| Orchestrator.SavedExactlyForSummarisedVideos | workflow/fetch_dify_summary.py:121-137 | a file is written by the run if and only if some channel's video dated today was summarised and its report path could be written; the path and content are that video's report |
| Orchestrator.OneReportRun | workflow/fetch_dify_summary.py:118-137 | a run over one channel whose feed holds one video dated today, summarised and saved, logs the summary start and writes that video's report at `<output dir>/<date>-<channel>-<sanitized title>.md` |
| Orchestrator.DemoRun | workflow/fetch_dify_summary.py:118-137 | end to end: a channel whose page names UCabcdefghijklmnopqrstuv and whose feed has "Test: Video?" published today at 09:30:00+09:00 writes `out/2024-05-01-Demo-Test Video.md` with the rendered summary |

## Left out

- HTTP requests, `feedparser.parse`, the clocks, `os.makedirs`, `open` and `write` are parameters of `World`. A write is one `canWrite(path)` answer covering both the directory creation and the file write.
- Orchestrator.World: `datetime.utcnow()` is read inside `get_today_videos` (line 55), so once per channel (through line 124). `World.utcToday` is one value for the whole run, so a run that crosses UTC midnight between channels is not represented.
- Orchestrator.World: `datetime.now()` is read again for every saved report (line 85). `World.localDate` is one value for the whole run, so a run that crosses local midnight between reports is not represented. The UTC date used for filtering and the local date used in names are independent parameters, as in the source.
- Orchestrator.VideoStep: `open(filepath, "w")` (line 109) creates or truncates the file before `write` and the flush on close. A write that fails part way, for example on a full disk, leaves an empty or truncated file behind while the video logs its error. The model writes nothing when `canWrite` is false, so `Orchestrator.SavedExactlyForSummarisedVideos` speaks of complete reports only.
- The summarisation call (`summarize_video`, lines 68-81) is the `World.summarize` parameter. The model builds the request's endpoint, bearer token and video URL but not the JSON body or the `Content-Type` header. All of these count as one failure reason: a raised request, a 4xx or 5xx status (what `raise_for_status` rejects), a body that is not JSON, and a missing `outputs` key.
- Timestamps.ParseTimestamp: accepts only zero-padded ASCII digits and offsets without seconds. The model rejects as malformed several forms `strptime` accepts:
  - one-digit month, day, hour, minute and second fields;
  - a space-padded day;
  - offsets with seconds or microseconds;
  - non-ASCII decimal digits such as fullwidth `２０２４`, which the format's `\d` patterns and `int()` accept.
- ReportWriter.SummaryData: `summary` is modelled as an optional string and `keywords` as an optional list of strings. Other JSON values are not represented. The source treats them as follows:
  - a `null`, boolean or numeric `summary` is printed by the f-string as `None`, `True`/`False` or the number;
  - a string `keywords` is joined character by character (`", ".join("ab")` is `a, b`);
  - an object `keywords` is joined by its keys;
  - a `null`, boolean or numeric `keywords`, or a list item that is not a string, raises `TypeError` inside the video-level `try`;
  - an `outputs` value that is not an object raises at `.get` (lines 90-91), also inside that `try`.
- ReportWriter.PathJoin: models `os.path.join` for POSIX paths only.
- The exact text of the printed log lines is not modelled. Each becomes an `Event` constructor carrying the same data.
- Feed entries missing `title`, `link` or `published` raise `AttributeError` in the source; every modelled entry has all three.
- Exceptions that are not `Exception` (e.g. `KeyboardInterrupt`) would escape both handlers. They are not modelled.
- `DIFY_API_URL` is computed at import time from the environment. The model computes the same URL from the checked settings; the two agree whenever `main` gets past its configuration check.
