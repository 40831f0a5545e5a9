/**
 * `main`: check the configuration, then for every channel in configuration order fetch
 * today's videos and, for each video, summarise it and save the report. A failure while
 * fetching a channel's videos is logged and the next channel is tried; a failure while
 * summarising or saving one video is logged and the next video is tried.
 * The run is observed as the sequence of events it produces: the log lines it prints and
 * the files it writes, in order.
 */
module Orchestrator {
  import opened Wrappers
  import opened Timestamps
  import opened ChannelResolver
  import opened DailyFilter
  import opened ReportWriter
  import Seqs

  /** The three environment variables; `None` when unset. */
  datatype Config = Config(apiKey: Option<string>, workflowId: Option<string>, outputDir: Option<string>)

  /** The same values once they are known to be present. */
  datatype Settings = Settings(apiKey: string, workflowId: string, outputDir: string)

  datatype ConfigError = MissingEnvironment

  /** An entry of the channel table: display name and channel page address. */
  datatype Channel = Channel(name: string, url: string)

  /** The POST request sent to the summarisation workflow. */
  datatype SummaryRequest = SummaryRequest(endpoint: string, authorization: string, youtubeUrl: string)

  /**
   * Everything outside the program: the channel page fetch, the feed parser, the
   * summarisation service (its `outputs`, or why the call raised), whether writing a path
   * succeeds, today's UTC date and the local date used in file names.
   */
  datatype World = World(
    fetchPage: string -> Option<Page>,
    fetchFeed: string -> seq<FeedEntry>,
    summarize: SummaryRequest -> Result<SummaryData, string>,
    canWrite: string -> bool,
    utcToday: Date,
    localDate: string)

  datatype VideoError = SummarizeFailed(reason: string) | WriteFailed(path: string)

  datatype Event =
    | NoVideosToday(channel: string)                     // "[INFO] ... no new video"
    | SummaryStarted(title: string, channel: string)     // "[INFO] summary start"
    | Saved(path: string, content: string)               // file written, "Saved: <path>"
    | VideoFailed(title: string, videoError: VideoError) // "[ERROR] video summary failed"
    | ChannelFailed(channel: string, channelError: ChannelError) // "[ERROR] channel failed"

  /** An unset or empty variable counts as missing, as `not value` does. */
  predicate IsSet(v: Option<string>)
  {
    v.Some? && v.value != ""
  }

  predicate IsComplete(c: Config)
  {
    IsSet(c.apiKey) && IsSet(c.workflowId) && IsSet(c.outputDir)
  }

  function SettingsOf(c: Config): Settings
    requires IsComplete(c)
  {
    Settings(c.apiKey.value, c.workflowId.value, c.outputDir.value)
  }

  const ApiBase: string := "https://api.dify.ai/v1/workflows/"
  const ExecuteSuffix: string := "/execute"
  const BearerPrefix: string := "Bearer "

  /**
   * `summarize_video`'s request: the workflow id sits between the API base and `/execute`,
   * the API key follows `Bearer `, and the video link is passed on unchanged.
   */
  function RequestFor(s: Settings, videoUrl: string): (r: SummaryRequest)
    ensures r.youtubeUrl == videoUrl
    ensures |r.endpoint| == |ApiBase| + |s.workflowId| + |ExecuteSuffix|
      && r.endpoint[..|ApiBase|] == ApiBase
      && r.endpoint[|ApiBase|..|ApiBase| + |s.workflowId|] == s.workflowId
      && r.endpoint[|ApiBase| + |s.workflowId|..] == ExecuteSuffix
    ensures |r.authorization| == |BearerPrefix| + |s.apiKey|
      && r.authorization[..|BearerPrefix|] == BearerPrefix && r.authorization[|BearerPrefix|..] == s.apiKey
  {
    Seqs.ConcatSlices(ApiBase, s.workflowId, ExecuteSuffix);
    SummaryRequest(ApiBase + s.workflowId + ExecuteSuffix, BearerPrefix + s.apiKey, videoUrl)
  }

  /** Where the report of video `v` of `channel` is written. */
  function ReportPath(w: World, s: Settings, channel: string, v: VideoRecord): string
  {
    PathJoin(s.outputDir, Filename(w.localDate, channel, v.title))
  }

  /**
   * The body of the video-level `try`: summarise, then write the report. It succeeds exactly
   * when the summary is obtained and the report path can be written, and then yields that
   * path and the rendered report; a failed summary is reported before any write is tried.
   */
  function VideoStep(w: World, s: Settings, channel: string, v: VideoRecord): (r: Result<(string, string), VideoError>)
    ensures r.Success? <==> w.summarize(RequestFor(s, v.url)).Success? && w.canWrite(ReportPath(w, s, channel, v))
    ensures r.Success? ==>
      r.value == (ReportPath(w, s, channel, v), Render(v.url, w.localDate, w.summarize(RequestFor(s, v.url)).value))
    ensures w.summarize(RequestFor(s, v.url)).Failure? ==>
      r == Failure(SummarizeFailed(w.summarize(RequestFor(s, v.url)).error))
    ensures w.summarize(RequestFor(s, v.url)).Success? && r.Failure? ==>
      r == Failure(WriteFailed(ReportPath(w, s, channel, v)))
  {
    match w.summarize(RequestFor(s, v.url))
    case Failure(reason) => Failure(SummarizeFailed(reason))
    case Success(data) =>
      var path := ReportPath(w, s, channel, v);
      if w.canWrite(path) then Success((path, Render(v.url, w.localDate, data)))
      else Failure(WriteFailed(path))
  }

  function VideoEvents(w: World, s: Settings, channel: string, v: VideoRecord): seq<Event>
  {
    [SummaryStarted(v.title, channel)]
    + match VideoStep(w, s, channel, v)
      case Success((path, content)) => [Saved(path, content)]
      case Failure(e) => [VideoFailed(v.title, e)]
  }

  function VideoLoop(w: World, s: Settings, channel: string): VideoRecord -> seq<Event>
  {
    v => VideoEvents(w, s, channel, v)
  }

  function ChannelVideos(w: World, ch: Channel): Result<seq<VideoRecord>, ChannelError>
  {
    TodayVideos(w.fetchPage, w.fetchFeed, w.utcToday, ch.url)
  }

  /**
   * The body of the channel-level `try`: never silent. A failure is one error event; no
   * video today is one notice; otherwise two events per video of the day.
   */
  function ChannelEvents(w: World, s: Settings, ch: Channel): (r: seq<Event>)
    ensures r != []
    ensures ChannelVideos(w, ch).Failure? ==> r == [ChannelFailed(ch.name, ChannelVideos(w, ch).error)]
    ensures ChannelVideos(w, ch).Success? && ChannelVideos(w, ch).value != [] ==>
      |r| == 2 * |ChannelVideos(w, ch).value|
  {
    match ChannelVideos(w, ch)
    case Failure(e) => [ChannelFailed(ch.name, e)]
    case Success(videos) =>
      if videos == [] then [NoVideosToday(ch.name)]
      else
        VideoEventsLength(w, s, ch.name, videos);
        Seqs.Flatten(VideoLoop(w, s, ch.name), videos)
  }

  /** Each video logs exactly two events: its start, then its file or its error. */
  lemma {:induction false} VideoEventsLength(w: World, s: Settings, channel: string, videos: seq<VideoRecord>)
    ensures |Seqs.Flatten(VideoLoop(w, s, channel), videos)| == 2 * |videos|
  {
    if videos != [] {
      VideoEventsLength(w, s, channel, videos[1..]);
    }
  }

  function ChannelLoop(w: World, s: Settings): Channel -> seq<Event>
  {
    ch => ChannelEvents(w, s, ch)
  }

  /** The events of the channel loop. */
  function Events(w: World, s: Settings, channels: seq<Channel>): seq<Event>
  {
    Seqs.Flatten(ChannelLoop(w, s), channels)
  }

  /**
   * What a run produces: a configuration error before anything else, or its events, at
   * least one per channel.
   */
  function RunLog(c: Config, channels: seq<Channel>, w: World): (r: Result<seq<Event>, ConfigError>)
    ensures r.Failure? <==> !IsComplete(c)
    ensures r.Success? ==> |r.value| >= |channels|
  {
    if !IsComplete(c) then Failure(MissingEnvironment)
    else
      EventsLength(w, SettingsOf(c), channels);
      Success(Events(w, SettingsOf(c), channels))
  }

  /** Every channel logs at least one event. */
  lemma {:induction false} EventsLength(w: World, s: Settings, channels: seq<Channel>)
    ensures |Events(w, s, channels)| >= |channels|
  {
    if channels != [] {
      EventsLength(w, s, channels[1..]);
      assert ChannelLoop(w, s)(channels[0]) == ChannelEvents(w, s, channels[0]);
    }
  }

  /** The inner loop of `main` over one channel's videos. */
  method ProcessVideos(w: World, s: Settings, channel: string, videos: seq<VideoRecord>) returns (events: seq<Event>)
    ensures events == Seqs.Flatten(VideoLoop(w, s, channel), videos)
  {
    events := [];
    for j := 0 to |videos|
      invariant events == Seqs.Flatten(VideoLoop(w, s, channel), videos[..j])
    {
      var video := videos[j];
      Seqs.FlattenSnoc(VideoLoop(w, s, channel), videos, j);
      assert VideoLoop(w, s, channel)(video) == VideoEvents(w, s, channel, video);
      ghost var before := events;
      events := events + [SummaryStarted(video.title, channel)];
      var outcome := VideoStep(w, s, channel, video);
      var last: seq<Event>;
      if outcome.Success? {
        last := [Saved(outcome.value.0, outcome.value.1)];
      } else {
        last := [VideoFailed(video.title, outcome.error)];
      }
      events := events + last;
      Seqs.AppendAssoc(before, [SummaryStarted(video.title, channel)], last);
    }
    assert videos[..|videos|] == videos;
  }

  method Run(c: Config, channels: seq<Channel>, w: World) returns (r: Result<seq<Event>, ConfigError>)
    ensures r == RunLog(c, channels, w)
  {
    if !IsSet(c.apiKey) || !IsSet(c.workflowId) || !IsSet(c.outputDir) {
      return Failure(MissingEnvironment);
    }
    var s := SettingsOf(c);
    var log: seq<Event> := [];
    for i := 0 to |channels|
      invariant log == Events(w, s, channels[..i])
    {
      var ch := channels[i];
      Seqs.FlattenSnoc(ChannelLoop(w, s), channels, i);
      assert ChannelLoop(w, s)(ch) == ChannelEvents(w, s, ch);
      var todayVideos := GetTodayVideos(w.fetchPage, w.fetchFeed, w.utcToday, ch.url);
      if todayVideos.Failure? {
        log := log + [ChannelFailed(ch.name, todayVideos.error)];
      } else if todayVideos.value == [] {
        log := log + [NoVideosToday(ch.name)];
      } else {
        var events := ProcessVideos(w, s, ch.name, todayVideos.value);
        log := log + events;
      }
    }
    assert channels[..|channels|] == channels;
    return Success(log);
  }

  // ---------------------------------------------------------------------------------
  // Ordering and isolation

  /**
   * Every channel is attempted, in configuration order: the run's events are those of the
   * channels before it, then its own (never none), then those of the channels after it.
   * Its own events depend on nothing but the channel itself.
   */
  lemma ChannelsInOrder(w: World, s: Settings, channels: seq<Channel>, i: nat)
    requires i < |channels|
    ensures Events(w, s, channels)
         == Events(w, s, channels[..i]) + ChannelEvents(w, s, channels[i]) + Events(w, s, channels[i + 1..])
    ensures ChannelEvents(w, s, channels[i]) != []
  {
    Seqs.FlattenAt(ChannelLoop(w, s), channels, i);
    var videos := ChannelVideos(w, channels[i]);
    if videos.Success? && videos.value != [] {
      var f := VideoLoop(w, s, channels[i].name);
      assert f(videos.value[0]) != [];
    }
  }

  /** A channel whose videos could not be fetched logs one error, and later channels run as usual. */
  lemma FailedChannelIsolated(w: World, s: Settings, channels: seq<Channel>, i: nat)
    requires i < |channels| && ChannelVideos(w, channels[i]).Failure?
    ensures Events(w, s, channels)
         == Events(w, s, channels[..i])
            + [ChannelFailed(channels[i].name, ChannelVideos(w, channels[i]).error)]
            + Events(w, s, channels[i + 1..])
  {
    Seqs.FlattenAt(ChannelLoop(w, s), channels, i);
  }

  /** A video that could not be summarised or saved logs one error, and later videos run as usual. */
  lemma FailedVideoIsolated(w: World, s: Settings, channel: string, videos: seq<VideoRecord>, j: nat)
    requires j < |videos| && VideoStep(w, s, channel, videos[j]).Failure?
    ensures Seqs.Flatten(VideoLoop(w, s, channel), videos)
         == Seqs.Flatten(VideoLoop(w, s, channel), videos[..j])
            + [SummaryStarted(videos[j].title, channel), VideoFailed(videos[j].title, VideoStep(w, s, channel, videos[j]).error)]
            + Seqs.Flatten(VideoLoop(w, s, channel), videos[j + 1..])
  {
    Seqs.FlattenAt(VideoLoop(w, s, channel), videos, j);
    var v := videos[j];
    assert VideoLoop(w, s, channel)(v) == VideoEvents(w, s, channel, v)
        == [SummaryStarted(v.title, channel), VideoFailed(v.title, VideoStep(w, s, channel, v).error)];
  }

  /** A channel without a video dated today writes nothing. */
  lemma NoVideosNoFiles(w: World, s: Settings, ch: Channel)
    requires ChannelVideos(w, ch) == Success([])
    ensures ChannelEvents(w, s, ch) == [NoVideosToday(ch.name)]
  {
  }

  /**
   * A malformed timestamp anywhere in a channel's feed skips the whole channel: it logs
   * one channel error naming the first malformed timestamp, and nothing is summarised.
   */
  lemma MalformedTimestampSkipsChannel(w: World, s: Settings, ch: Channel)
    requires ResolveChannelId(w.fetchPage, ch.url).Success?
    requires var entries := w.fetchFeed(FeedUrl(ResolveChannelId(w.fetchPage, ch.url).value));
      exists j :: 0 <= j < |entries| && IsMalformed(entries[j])
    ensures var entries := w.fetchFeed(FeedUrl(ResolveChannelId(w.fetchPage, ch.url).value));
      exists j :: 0 <= j < |entries| && IsMalformed(entries[j])
        && (forall l :: 0 <= l < j ==> !IsMalformed(entries[l]))
        && ChannelEvents(w, s, ch) == [ChannelFailed(ch.name, MalformedTimestamp(entries[j].published))]
  {
    var entries := w.fetchFeed(FeedUrl(ResolveChannelId(w.fetchPage, ch.url).value));
    FailsOnMalformed(entries, w.utcToday);
  }

  // ---------------------------------------------------------------------------------
  // Which files are written

  /** Video `v` of channel `ch` is summarised and its report is written to `path` with `content`. */
  predicate ProducesFile(w: World, s: Settings, ch: Channel, v: VideoRecord, path: string, content: string)
  {
    var summary := w.summarize(RequestFor(s, v.url));
    summary.Success?
    && path == ReportPath(w, s, ch.name, v)
    && w.canWrite(path)
    && content == Render(v.url, w.localDate, summary.value)
  }

  /** Today's videos of a channel; none when fetching them failed. */
  function TodayList(w: World, ch: Channel): seq<VideoRecord>
  {
    if ChannelVideos(w, ch).Success? then ChannelVideos(w, ch).value else []
  }

  lemma VideoSaves(w: World, s: Settings, ch: Channel, v: VideoRecord, path: string, content: string)
    ensures Saved(path, content) in VideoEvents(w, s, ch.name, v) <==> ProducesFile(w, s, ch, v, path, content)
  {
  }

  /** The inner loop over `videos` writes a file exactly for the videos that produce it. */
  lemma VideosSave(w: World, s: Settings, ch: Channel, videos: seq<VideoRecord>, path: string, content: string)
    ensures Saved(path, content) in Seqs.Flatten(VideoLoop(w, s, ch.name), videos)
            <==> exists v :: v in videos && ProducesFile(w, s, ch, v, path, content)
  {
    var f := VideoLoop(w, s, ch.name);
    var e := Saved(path, content);
    Seqs.FlattenMember(f, videos, e);
    forall k | 0 <= k < |videos|
      ensures e in f(videos[k]) <==> ProducesFile(w, s, ch, videos[k], path, content)
    {
      VideoSaves(w, s, ch, videos[k], path, content);
    }
    forall v | v in videos && ProducesFile(w, s, ch, v, path, content)
      ensures exists k :: 0 <= k < |videos| && e in f(videos[k])
    {
      var k :| 0 <= k < |videos| && videos[k] == v;
      assert e in f(videos[k]);
    }
  }

  lemma ChannelSaves(w: World, s: Settings, ch: Channel, path: string, content: string)
    ensures Saved(path, content) in ChannelEvents(w, s, ch)
            <==> exists v :: v in TodayList(w, ch) && ProducesFile(w, s, ch, v, path, content)
  {
    var videos := TodayList(w, ch);
    if ChannelVideos(w, ch).Success? && videos != [] {
      assert ChannelEvents(w, s, ch) == Seqs.Flatten(VideoLoop(w, s, ch.name), videos);
      VideosSave(w, s, ch, videos, path, content);
    } else {
      assert |ChannelEvents(w, s, ch)| == 1 && !ChannelEvents(w, s, ch)[0].Saved?;
    }
  }

  /**
   * A file is written exactly for a video dated today, in a channel whose videos were
   * fetched, whose summary was obtained and whose path could be written; its name and
   * content are the report of that video.
   */
  lemma SavedExactlyForSummarisedVideos(w: World, s: Settings, channels: seq<Channel>, path: string, content: string)
    ensures Saved(path, content) in Events(w, s, channels)
            <==> exists i, v :: 0 <= i < |channels| && v in TodayList(w, channels[i])
                                && ProducesFile(w, s, channels[i], v, path, content)
  {
    var g := ChannelLoop(w, s);
    Seqs.FlattenMember(g, channels, Saved(path, content));
    forall i | 0 <= i < |channels|
      ensures Saved(path, content) in g(channels[i])
              <==> exists v :: v in TodayList(w, channels[i]) && ProducesFile(w, s, channels[i], v, path, content)
    {
      ChannelSaves(w, s, channels[i], path, content);
    }
  }

  // ---------------------------------------------------------------------------------
  // One complete run

  lemma SingleVideoChannel(w: World, ch: Channel, id: string, entry: FeedEntry)
    requires ResolveChannelId(w.fetchPage, ch.url) == Success(id)
    requires w.fetchFeed(FeedUrl(id)) == [entry] && IsFrom(entry, w.utcToday)
    ensures ChannelVideos(w, ch) == Success([Record(entry)])
  {
    assert FilterFrom([entry], w.utcToday, 1) == Success([]);
    assert [Record(entry)] + [] == [Record(entry)];
  }

  lemma SavedVideo(w: World, s: Settings, channel: string, v: VideoRecord, data: SummaryData)
    requires w.summarize(RequestFor(s, v.url)) == Success(data)
    requires w.canWrite(PathJoin(s.outputDir, Filename(w.localDate, channel, v.title)))
    ensures VideoEvents(w, s, channel, v)
         == [SummaryStarted(v.title, channel),
             Saved(PathJoin(s.outputDir, Filename(w.localDate, channel, v.title)), Render(v.url, w.localDate, data))]
  {
  }

  lemma SingleVideoRun(w: World, s: Settings, ch: Channel, v: VideoRecord)
    requires ChannelVideos(w, ch) == Success([v])
    ensures Events(w, s, [ch]) == VideoEvents(w, s, ch.name, v)
  {
    var f, g := VideoLoop(w, s, ch.name), ChannelLoop(w, s);
    assert Seqs.Flatten(f, [v]) == f(v) + Seqs.Flatten(f, []);
    assert Seqs.Flatten(g, [ch]) == g(ch) + Seqs.Flatten(g, []);
  }

  /**
   * A run over one channel whose feed holds one entry, dated today, that is summarised and
   * saved: the run logs the start of the summary and writes that entry's report.
   */
  lemma OneReportRun(c: Config, ch: Channel, w: World, id: string, entry: FeedEntry, data: SummaryData)
    requires IsComplete(c)
    requires ResolveChannelId(w.fetchPage, ch.url) == Success(id)
    requires w.fetchFeed(FeedUrl(id)) == [entry] && IsFrom(entry, w.utcToday)
    requires w.summarize(RequestFor(SettingsOf(c), entry.link)) == Success(data)
    requires w.canWrite(PathJoin(c.outputDir.value, Filename(w.localDate, ch.name, entry.title)))
    ensures RunLog(c, [ch], w)
         == Success([SummaryStarted(entry.title, ch.name),
                     Saved(PathJoin(c.outputDir.value, Filename(w.localDate, ch.name, entry.title)),
                           Render(entry.link, w.localDate, data))])
  {
    var s := SettingsOf(c);
    SingleVideoChannel(w, ch, id, entry);
    SavedVideo(w, s, ch.name, Record(entry), data);
    SingleVideoRun(w, s, ch, Record(entry));
  }

  /** Channel "Demo", whose page names channel UCabcdefghijklmnopqrstuv. */
  const DemoChannel: Channel := Channel("Demo", "https://www.youtube.com/@demo")
  const DemoId: string := "UCabcdefghijklmnopqrstuv"

  /** The feed's one entry, published on 1 May 2024 at 09:30:00+09:00. */
  const DemoEntry: FeedEntry :=
    FeedEntry("Test: Video?", "https://youtu.be/xyz", FormatTimestamp(Date(2024, 5, 1), Time(9, 30, 0), Numeric(false, 9, 0, true)))

  /** The summariser's answer: summary "Hello", keywords a and b. */
  const DemoData: SummaryData := SummaryData(Some("Hello"), Some(["a", "b"]))

  const DemoConfig: Config := Config(Some("key"), Some("workflow"), Some("out"))

  /** Every request succeeds and today is 1 May 2024, in UTC and locally. */
  const DemoWorld: World :=
    World(_ => Some(Page(200, Marker + DemoId + "\"")), _ => [DemoEntry], _ => Success(DemoData), _ => true,
          Date(2024, 5, 1), "2024-05-01")

  lemma DemoResolves()
    ensures ResolveChannelId(DemoWorld.fetchPage, DemoChannel.url) == Success(DemoId)
  {
    ExampleIsChannelId();
    ResolveSingleMatch(DemoWorld.fetchPage, DemoChannel.url, DemoId);
  }

  lemma DemoEntryIsToday()
    ensures IsFrom(DemoEntry, DemoWorld.utcToday)
  {
    ParseFormat(Date(2024, 5, 1), Time(9, 30, 0), Numeric(false, 9, 0, true));
  }

  lemma DemoPath()
    ensures PathJoin("out", Filename("2024-05-01", "Demo", "Test: Video?")) == "out/" + "2024-05-01-Demo-Test Video.md"
  {
    FilenameExample();
    assert "out" + "/" == "out/";
  }

  /**
   * The run over the demo channel logs the start of the summary and writes one report,
   * named after the date, the channel and the title without its illegal characters.
   */
  lemma DemoRun()
    ensures RunLog(DemoConfig, [DemoChannel], DemoWorld)
         == Success([SummaryStarted("Test: Video?", "Demo"),
                     Saved("out/" + "2024-05-01-Demo-Test Video.md", Render("https://youtu.be/xyz", "2024-05-01", DemoData))])
  {
    DemoResolves();
    DemoEntryIsToday();
    DemoPath();
    OneReportRun(DemoConfig, DemoChannel, DemoWorld, DemoId, DemoEntry, DemoData);
  }
}
