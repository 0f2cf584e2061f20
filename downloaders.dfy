/** The downloader objects (downloaders/base.py and its four subclasses):
    one class whose `platform` field stands for the subclass, with the
    progress callback, the cached ffmpeg path, the engine-driven download of
    the base class and the browser-driven download Audiomack overrides it
    with. The extraction engine, the browser, the HTTP stream and ffmpeg are
    inputs (`World`). */
module Downloaders {
  import opened Wrappers
  import opened Text
  import opened Base
  import YT = YouTubeDownloader
  import TW = TwitterDownloader
  import IG = InstagramDownloader
  import AM = AudiomackDownloader

  /** The four subclasses of BaseDownloader. */
  datatype Platform = YouTube | Twitter | Instagram | Audiomack {
    /** `PLATFORM_NAME` */
    function Name(): string {
      match this
      case YouTube => YT.PlatformName
      case Twitter => TW.PlatformName
      case Instagram => IG.PlatformName
      case Audiomack => AM.PlatformName
    }

    /** `SUPPORTED_DOMAINS` */
    function Domains(): seq<string> {
      match this
      case YouTube => YT.SupportedDomains
      case Twitter => TW.SupportedDomains
      case Instagram => IG.SupportedDomains
      case Audiomack => AM.SupportedDomains
    }

    /** `can_handle(url)` */
    predicate Handles(url: string) {
      CanHandle(Domains(), url)
    }

    /** `_get_platform_options`: the three engine platforms follow the
        format policy and never set a base key; Audiomack's is empty. */
    function PlatformOptions(format: OutputFormat, hasFfmpeg: bool): (r: Options)
      ensures this != Audiomack ==> FollowsFormatPolicy(r, format, hasFfmpeg)
      ensures this == Audiomack ==> r == map[]
    {
      match this
      case YouTube => YT.PlatformOptions(format, hasFfmpeg)
      case Twitter => TW.PlatformOptions(format, hasFfmpeg)
      case Instagram => IG.PlatformOptions(format, hasFfmpeg)
      case Audiomack => map[]
    }
  }

  /** No platform option overrides a base option. */
  lemma PlatformKeysApart(p: Platform, format: OutputFormat, hasFfmpeg: bool)
    ensures p.PlatformOptions(format, hasFfmpeg).Keys !! BaseKeys
  {
    var keys := p.PlatformOptions(format, hasFfmpeg).Keys;
    assert keys <= PlatformKeys;
    forall k | k in keys ensures k !in BaseKeys {
      PlatformKeyApart(k);
    }
  }

  /** Every key a platform may set. */
  const PlatformKeys: set<string> :=
    {"age_limit", "nocheckcertificate", "extractor_args", "format", "postprocessors", "merge_output_format"}

  lemma PlatformKeyApart(k: string)
    requires k in PlatformKeys
    ensures k !in BaseKeys
  {
  }

  /** The names, as strings, are pairwise different. */
  lemma NamesDistinct(p: Platform, q: Platform)
    ensures p.Name() == q.Name() <==> p == q
  {
    assert YT.PlatformName[0] == 'Y' && TW.PlatformName[0] == 'X';
    assert IG.PlatformName[0] == 'I' && AM.PlatformName[0] == 'A';
  }

  // ---------------------------------------------------------------------
  // The base class's download, driven by the extraction engine

  /** The extraction engine: what `YoutubeDL(opts).extract_info(url)` does
      with these options on this URL. */
  type Engine = (Options, string) -> EngineRun

  /** The outside world one download meets: the ffmpeg lookups, the
      extraction engine, and what the browser, the HTTP server and ffmpeg do
      for an Audiomack download. */
  datatype World = World(tools: Tools, engine: Engine, session: AM.Session)

  /** The options `download` hands to the engine (`_get_base_options` then
      `opts.update(_get_platform_options(config))`) and the ffmpeg cache
      afterwards. The base options ask `_get_ffmpeg_path` only when the
      configured path is not truthy; the platform options ask
      `_has_ffmpeg` only for a video request. */
  function EngineOptions(p: Platform, config: Config, cache: Option<string>, tools: Tools): (Options, Option<string>) {
    var (resolved, c1) := if Truthy(config.ffmpegPath) then (None, cache) else Resolve(cache, tools);
    var base := BaseOptions(config, resolved);
    var asks := p != Audiomack && config.format == Video;
    var c2 := if asks then Resolve(c1, tools).1 else c1;
    var hasFfmpeg := asks && Resolve(c1, tools).0.Some?;
    (Merge(base, p.PlatformOptions(config.format, hasFfmpeg)), c2)
  }

  /** `info.get('title', 'archivo')` */
  function TitleOr(info: Info): string {
    if "title" in info then info["title"] else "archivo"
  }

  /** The last event of an engine download: the completion with the title
      (or `archivo`) when the engine returned, the error with the exception
      text when it raised. */
  function LastEvent(outcome: Result<Info>): Progress {
    match outcome
    case Success(info) => Event(100.0, Finished, Completed(TitleOr(info)))
    case Failure(e) => Event(0.0, Error, Failed(e))
  }

  /** `download` of the base class: the start event, the events the hooks
      report while the engine runs, then the last event; the engine's
      result is returned as it is, or its exception raised again. */
  function EngineDownload(p: Platform, config: Config, cache: Option<string>, tools: Tools, engine: Engine): Outcome {
    var (opts, c) := EngineOptions(p, config, cache, tools);
    var run := engine(opts, config.url);
    Outcome(run.outcome,
            [Event(0.0, Downloading, Literal(StartingText))] + HookEvents(run.calls) + [LastEvent(run.outcome)],
            c)
  }

  /** The engine download in terms of the options and cache it builds. */
  lemma EngineDownloadOf(p: Platform, config: Config, cache: Option<string>, tools: Tools, engine: Engine,
                         opts: Options, c: Option<string>)
    requires (opts, c) == EngineOptions(p, config, cache, tools)
    ensures var run := engine(opts, config.url);
      EngineDownload(p, config, cache, tools, engine)
        == Outcome(run.outcome, [Event(0.0, Downloading, Literal(StartingText))] + HookEvents(run.calls) + [LastEvent(run.outcome)], c)
  {
  }

  /** What every download does: the base class's for the three engine
      platforms, Audiomack's own for Audiomack. */
  function DownloadOutcome(p: Platform, config: Config, cache: Option<string>, w: World): Outcome {
    if p == Audiomack then AM.Download(config, cache, w.tools, w.session)
    else EngineDownload(p, config, cache, w.tools, w.engine)
  }

  /** A download by the downloader of `p` holding the cached ffmpeg path
      `cache`: it returned `result`, left the cache `after`, and the
      callback `sink`, if any, went from `before` to `now` by the
      download's events. */
  predicate DownloadedAs(p: Platform, config: Config, cache: Option<string>, w: World,
                         result: Result<Info>, after: Option<string>, sink: ProgressSink?,
                         before: seq<Progress>, now: seq<Progress>) {
    var o := DownloadOutcome(p, config, cache, w);
    result == o.result && after == o.cache && (sink != null ==> now == before + o.events)
  }

  // ---------------------------------------------------------------------
  // What the engine download promises

  /** No event of `es` is a completion. */
  predicate NoneFinished(es: seq<Progress>) {
    forall i :: 0 <= i < |es| ==> es[i].status != Finished
  }

  /** No event of `es` carries an exception text or a completion text. */
  predicate NoneTerminal(es: seq<Progress>) {
    forall i :: 0 <= i < |es| ==> !es[i].message.Failed? && !es[i].message.Completed?
  }

  /** The hooks never report a completion, an exception text or a
      completion text: those are for `download` alone. */
  lemma {:induction false} HookEventsNotTerminal(calls: seq<HookCall>)
    ensures NoneFinished(HookEvents(calls)) && NoneTerminal(HookEvents(calls))
  {
    if calls != [] {
      HookEventsNotTerminal(calls[1..]);
      var head := Yield(calls[0]);
      var es := HookEvents(calls);
      assert es == head + HookEvents(calls[1..]);
      forall i | 0 <= i < |es| ensures es[i].status != Finished && !es[i].message.Failed? && !es[i].message.Completed? {
        if i >= |head| {
          assert es[i] == HookEvents(calls[1..])[i - |head|];
        }
      }
    }
  }

  /** The hooks report for consecutive runs of calls one after the other. */
  lemma {:induction false} HookEventsAppend(a: seq<HookCall>, b: seq<HookCall>)
    ensures HookEvents(a + b) == HookEvents(a) + HookEvents(b)
  {
    if a != [] {
      assert (a + b)[0] == a[0];
      assert (a + b)[1..] == a[1..] + b;
      HookEventsAppend(a[1..], b);
      ReportedAfter(Yield(a[0]), HookEvents(a[1..]), HookEvents(b));
    } else {
      assert a + b == b;
    }
  }

  /** One more call adds what that call yields. */
  lemma HookEventsSnoc(calls: seq<HookCall>, i: nat)
    requires i < |calls|
    ensures HookEvents(calls[..i + 1]) == HookEvents(calls[..i]) + Yield(calls[i])
  {
    assert calls[..i + 1] == calls[..i] + [calls[i]];
    HookEventsAppend(calls[..i], [calls[i]]);
    assert HookEvents([calls[i]]) == Yield(calls[i]) + HookEvents([]);
  }

  /** Reports appended one batch after another. */
  lemma ReportedAfter(before: seq<Progress>, done: seq<Progress>, more: seq<Progress>)
    ensures before + done + more == before + (done + more)
  {
  }

  /** Reports made around a run, appended one after another. */
  lemma ReportedAround(before: seq<Progress>, start: Progress, middle: seq<Progress>, last: Progress, all: seq<Progress>)
    requires all == [start] + middle + [last]
    ensures before + [start] + middle + [last] == before + all
  {
  }

  /** How an engine download reports: the start event first; then nothing
      that completes or carries a terminal text; then one last event, which
      is the completion at 100 with the returned title (or `archivo`) when
      the engine returned, and the error event with the exception text when
      it raised. The result is the engine's own, unchanged. */
  predicate ReportsOnce(o: Outcome, run: EngineRun) {
    && o.result == run.outcome
    && |o.events| >= 2
    && o.events[0] == Event(0.0, Downloading, Literal(StartingText))
    && NoneFinished(o.events[..|o.events| - 1]) && NoneTerminal(o.events[..|o.events| - 1])
    && o.events[|o.events| - 1] == LastEvent(o.result)
  }

  lemma EngineDownloadReports(p: Platform, config: Config, cache: Option<string>, tools: Tools, engine: Engine)
    ensures ReportsOnce(EngineDownload(p, config, cache, tools, engine),
                        engine(EngineOptions(p, config, cache, tools).0, config.url))
  {
    var (opts, c) := EngineOptions(p, config, cache, tools);
    EngineDownloadOf(p, config, cache, tools, engine, opts, c);
    RunReportsOnce(EngineDownload(p, config, cache, tools, engine), engine(opts, config.url), c);
  }

  /** ReportsOnce for the events of any engine run framed by the start and
      end events. */
  lemma RunReportsOnce(o: Outcome, run: EngineRun, c: Option<string>)
    requires o == Outcome(run.outcome, [Event(0.0, Downloading, Literal(StartingText))] + HookEvents(run.calls) + [LastEvent(run.outcome)], c)
    ensures ReportsOnce(o, run)
  {
    HookEventsNotTerminal(run.calls);
    var during := [Event(0.0, Downloading, Literal(StartingText))] + HookEvents(run.calls);
    assert o.events[..|o.events| - 1] == during;
    assert forall i :: 1 <= i < |during| ==> during[i] == HookEvents(run.calls)[i - 1];
  }

  /** The options an engine platform downloads with follow the format policy
      for whether ffmpeg is found from the cache the download started with;
      the configured ffmpeg path plays no part in that choice. */
  lemma EngineOptionsPolicy(p: Platform, config: Config, cache: Option<string>, tools: Tools)
    requires p != Audiomack
    ensures FollowsFormatPolicy(EngineOptions(p, config, cache, tools).0, config.format, FfmpegFound(cache, tools))
  {
    var (resolved, c1) := if Truthy(config.ffmpegPath) then (None, cache) else Resolve(cache, tools);
    ResolveRepeat(cache, tools);
    var found := FfmpegFound(cache, tools);
    var plat := p.PlatformOptions(config.format, config.format == Video && found);
    assert FollowsFormatPolicy(plat, config.format, found);
    assert EngineOptions(p, config, cache, tools).0 == Merge(BaseOptions(config, resolved), plat);
    MergeKeepsPolicy(BaseOptions(config, resolved), plat, config.format, found);
  }

  /** The keys the format policy looks at are none of the base keys. */
  lemma PolicyKeysApart()
    ensures {"format", "postprocessors", "merge_output_format"} !! BaseKeys
  {
  }

  /** Laying options that follow the policy over base options keeps the
      policy. */
  lemma MergeKeepsPolicy(base: Options, plat: Options, format: OutputFormat, hasFfmpeg: bool)
    requires base.Keys <= BaseKeys
    requires FollowsFormatPolicy(plat, format, hasFfmpeg)
    ensures FollowsFormatPolicy(Merge(base, plat), format, hasFfmpeg)
  {
    PolicyKeysApart();
  }

  /** Every base option survives the update, and the update adds only the
      platform's keys. */
  lemma EngineOptionsKeepBase(p: Platform, config: Config, cache: Option<string>, tools: Tools)
    ensures var (resolved, c1) := if Truthy(config.ffmpegPath) then (None, cache) else Resolve(cache, tools);
      var base := BaseOptions(config, resolved);
      var opts := EngineOptions(p, config, cache, tools).0;
      && (forall k :: k in base ==> k in opts && opts[k] == base[k])
      && (forall k :: k in opts && k !in base ==> k !in BaseKeys)
  {
    var (resolved, c1) := if Truthy(config.ffmpegPath) then (None, cache) else Resolve(cache, tools);
    var asks := p != Audiomack && config.format == Video;
    var hasFfmpeg := asks && Resolve(c1, tools).0.Some?;
    PlatformKeysApart(p, config.format, hasFfmpeg);
  }

  /** `ffmpeg_location` is passed exactly when the configured path is
      truthy (and then it is that path) or, failing that, when the looked-up
      one is (and then it is that one). */
  lemma EngineOptionsFfmpeg(p: Platform, config: Config, cache: Option<string>, tools: Tools)
    ensures var opts := EngineOptions(p, config, cache, tools).0;
      var found := Resolve(cache, tools).0;
      && ("ffmpeg_location" in opts <==> Truthy(config.ffmpegPath) || Truthy(found))
      && (Truthy(config.ffmpegPath) ==> opts["ffmpeg_location"] == Str(config.ffmpegPath.value))
      && (!Truthy(config.ffmpegPath) && Truthy(found) ==> opts["ffmpeg_location"] == Str(found.value))
  {
    var (resolved, c1) := if Truthy(config.ffmpegPath) then (None, cache) else Resolve(cache, tools);
    BaseOptionsOptional(config, resolved);
    EngineOptionsKeepBase(p, config, cache, tools);
    PolicyKeysApart();
    var asks := p != Audiomack && config.format == Video;
    var hasFfmpeg := asks && Resolve(c1, tools).0.Some?;
    PlatformKeysApart(p, config.format, hasFfmpeg);
    assert "ffmpeg_location" in BaseKeys;
  }

  // ---------------------------------------------------------------------
  // The downloader object

  /** A BaseDownloader instance of the subclass `platform`. */
  class Downloader {
    const platform: Platform
    /** `progress_callback`; `null` for None. */
    const sink: ProgressSink?
    /** `_ffmpeg_path`, the cached ffmpeg path. */
    var ffmpegPath: Option<string>

    constructor (platform: Platform, sink: ProgressSink?)
      ensures this.platform == platform && this.sink == sink && ffmpegPath == None
    {
      this.platform := platform;
      this.sink := sink;
      ffmpegPath := None;
    }

    /** `_report_progress`: the event reaches the callback when there is
        one, and nothing happens otherwise. */
    method ReportProgress(p: Progress)
      modifies sink
      ensures sink != null ==> sink.events == old(sink.events) + [p]
    {
      if sink != null {
        sink.events := sink.events + [p];
      }
    }

    /** `_get_ffmpeg_path` */
    method GetFfmpegPath(tools: Tools) returns (path: Option<string>)
      modifies this
      ensures (path, ffmpegPath) == Resolve(old(ffmpegPath), tools)
    {
      if Truthy(ffmpegPath) {
        return ffmpegPath;
      }
      if tools.bundled.Some? {
        ffmpegPath := tools.bundled;
        return ffmpegPath;
      }
      if Truthy(tools.onPath) {
        ffmpegPath := tools.onPath;
        return ffmpegPath;
      }
      return None;
    }

    /** `_has_ffmpeg` */
    method HasFfmpeg(tools: Tools) returns (found: bool)
      modifies this
      ensures found == FfmpegFound(old(ffmpegPath), tools)
      ensures ffmpegPath == Resolve(old(ffmpegPath), tools).1
    {
      var path := GetFfmpegPath(tools);
      found := path.Some?;
    }

    /** `_get_base_options`, which asks for the ffmpeg path only when the
        configured one is not truthy. */
    method GetBaseOptions(config: Config, tools: Tools) returns (opts: Options)
      modifies this
      ensures var (resolved, c) := if Truthy(config.ffmpegPath) then (None, old(ffmpegPath))
                                   else Resolve(old(ffmpegPath), tools);
        opts == BaseOptions(config, resolved) && ffmpegPath == c
    {
      opts := map[
        "outtmpl" := Str(JoinPath(config.outputDir, OutputTemplate)),
        "noplaylist" := Bool(true),
        "retries" := Int(10),
        "fragment_retries" := Int(10),
        "concurrent_fragment_downloads" := Int(4),
        "progress_hooks" := List([Hook(ProgressHookFn)]),
        "postprocessor_hooks" := List([Hook(PostprocessorHookFn)]),
        "quiet" := Bool(true),
        "no_warnings" := Bool(true)
      ];
      var ffmpeg := config.ffmpegPath;
      if !Truthy(ffmpeg) {
        ffmpeg := GetFfmpegPath(tools);
      }
      if Truthy(ffmpeg) {
        opts := opts["ffmpeg_location" := Str(ffmpeg.value)];
      }
      if Truthy(config.cookiesFile) {
        opts := opts["cookiefile" := Str(config.cookiesFile.value)];
      }
    }

    /** `_get_platform_options` of the subclass; only a video request of an
        engine platform asks whether ffmpeg is there. */
    method GetPlatformOptions(config: Config, tools: Tools) returns (opts: Options)
      modifies this
      ensures var asks := platform != Audiomack && config.format == Video;
        && opts == platform.PlatformOptions(config.format, asks && FfmpegFound(old(ffmpegPath), tools))
        && ffmpegPath == if asks then Resolve(old(ffmpegPath), tools).1 else old(ffmpegPath)
    {
      if platform == Audiomack || config.format == Audio {
        opts := platform.PlatformOptions(config.format, false);
      } else {
        var hasFfmpeg := HasFfmpeg(tools);
        opts := platform.PlatformOptions(config.format, hasFfmpeg);
      }
    }

    /** The options `download` builds: the base options updated with the
        platform's. */
    method GetEngineOptions(config: Config, tools: Tools) returns (opts: Options)
      modifies this
      ensures (opts, ffmpegPath) == EngineOptions(platform, config, old(ffmpegPath), tools)
    {
      opts := GetBaseOptions(config, tools);
      var platformOpts := GetPlatformOptions(config, tools);
      ResolveRepeat(old(ffmpegPath), tools);
      opts := opts + platformOpts;
    }

    /** The hooks at work while the engine runs: each call that yields an
        event reports it, in order. */
    method ReportHookCalls(calls: seq<HookCall>)
      modifies sink
      ensures sink != null ==> sink.events == old(sink.events) + HookEvents(calls)
    {
      ghost var before := if sink != null then sink.events else [];
      var i := 0;
      while i < |calls|
        invariant 0 <= i <= |calls|
        invariant sink != null ==> sink.events == before + HookEvents(calls[..i])
      {
        HookEventsSnoc(calls, i);
        ReportedAfter(before, HookEvents(calls[..i]), Yield(calls[i]));
        var event := HookEvent(calls[i]);
        if event.Some? {
          ReportProgress(event.value);
        }
        i := i + 1;
      }
      assert calls[..i] == calls;
    }

    /** `download` of the base class. */
    method DownloadWithEngine(config: Config, tools: Tools, engine: Engine) returns (result: Result<Info>)
      modifies this, sink
      ensures var o := EngineDownload(platform, config, old(ffmpegPath), tools, engine);
        && result == o.result && ffmpegPath == o.cache
        && (sink != null ==> sink.events == old(sink.events) + o.events)
    {
      ghost var before := if sink != null then sink.events else [];
      var start := Event(0.0, Downloading, Literal(StartingText));
      ReportProgress(start);
      var opts := GetEngineOptions(config, tools);
      assert sink != null ==> sink.events == before + [start];
      EngineDownloadOf(platform, config, old(ffmpegPath), tools, engine, opts, ffmpegPath);
      result := RunEngine(engine, opts, config.url);
      ghost var run := engine(opts, config.url);
      ReportedAround(before, start, HookEvents(run.calls), LastEvent(run.outcome),
                     EngineDownload(platform, config, old(ffmpegPath), tools, engine).events);
    }

    /** The engine at work on `url` with `opts`: its hook calls are reported
        as they come, then the end of the run. */
    method RunEngine(engine: Engine, opts: Options, url: string) returns (result: Result<Info>)
      modifies sink
      ensures var run := engine(opts, url);
        && result == run.outcome
        && (sink != null ==> sink.events == old(sink.events) + HookEvents(run.calls) + [LastEvent(run.outcome)])
    {
      var run := engine(opts, url);
      ReportHookCalls(run.calls);
      result := ReportEnd(run.outcome);
    }

    /** `_extract_streaming_url(url)` of the Audiomack downloader, `page`
        being what the browser shows. The metadata come from the URL, then
        the heading; the play button's absence raises. */
    method ExtractStreamingUrl(url: string, page: AM.Page) returns (r: Result<(Option<string>, AM.Metadata)>)
      modifies sink
      ensures r == AM.Extract(url, page).0
      ensures sink != null ==> sink.events == old(sink.events) + AM.Extract(url, page).1
    {
      ghost var before := if sink != null then sink.events else [];
      ReportProgress(Event(10.0, Downloading, Literal(AM.LoadingPageText)));
      ReportProgress(Event(15.0, Downloading, Literal(AM.ClosingPopupsText)));
      var metadata := AM.UrlMetadata(url);
      metadata := AM.RefineFromHeading(metadata, page.h1);
      ReportProgress(Event(25.0, Downloading, Literal(AM.StartingPlaybackText)));
      assert sink != null ==> sink.events == before + AM.LoadingEvents;
      if page.playButtonError.Some? {
        return Failure(AM.PlayButtonErrorPrefix + page.playButtonError.value);
      }
      ReportProgress(Event(35.0, Downloading, Literal(AM.WaitingAudioText)));
      ReportProgress(Event(50.0, Downloading, Literal(AM.SearchingUrlText)));
      var streamingUrl := AM.ScanLog(page.log);
      r := Success((streamingUrl, metadata));
      assert sink != null ==> sink.events == before + AM.LoadingEvents + AM.ListeningEvents;
      ReportedAfter(before, AM.LoadingEvents, AM.ListeningEvents);
    }

    /** `_download_file`: reads until the first empty chunk, writes every
        chunk, and reports each one when the length is known. `written` is
        the size of the file it leaves. */
    method DownloadFile(resp: AM.Response) returns (written: nat)
      modifies sink
      ensures written == AM.Received(resp.chunks)
      ensures sink != null ==> sink.events == old(sink.events) + AM.TransferEvents(resp.chunks, resp.contentLength, 0)
    {
      ghost var before := if sink != null then sink.events else [];
      var total := resp.contentLength;
      var downloaded: nat := 0;
      var i := 0;
      while i < |resp.chunks|
        invariant 0 <= i <= |resp.chunks|
        invariant downloaded + AM.Received(resp.chunks[i..]) == AM.Received(resp.chunks)
        invariant sink != null ==>
          before + AM.TransferEvents(resp.chunks, total, 0)
            == sink.events + AM.TransferEvents(resp.chunks[i..], total, downloaded)
      {
        var chunk := resp.chunks[i];
        if chunk == 0 {
          break;
        }
        assert resp.chunks[i..][1..] == resp.chunks[i + 1..];
        ghost var events := if sink != null then sink.events else [];
        ghost var step := if total > 0 then [AM.TransferEvent(downloaded + chunk, total)] else [];
        ReportedAfter(events, step, AM.TransferEvents(resp.chunks[i + 1..], total, downloaded + chunk));
        downloaded := downloaded + chunk;
        if total > 0 {
          ReportProgress(AM.TransferEvent(downloaded, total));
        }
        i := i + 1;
      }
      assert i == |resp.chunks| ==> resp.chunks[i..] == [];
      written := downloaded;
    }

    /** The mp3 conversion of Audiomack's `download` for the file saved at
        `dest`: asked for an audio request of an m4a stream, run when ffmpeg
        is found (looked up once more to run it); the mp3 replaces the file
        when ffmpeg left one behind. */
    method ConvertToMp3(format: OutputFormat, ext: string, dest: string, tools: Tools, mp3Created: bool)
      returns (path: string)
      modifies this, sink
      ensures var conv := AM.Conversion(format, ext, dest, old(ffmpegPath), tools, mp3Created);
        && path == conv.0 && ffmpegPath == conv.1
        && (sink != null ==> sink.events == old(sink.events) + conv.2)
    {
      path := dest;
      if format == Audio && ext == "m4a" {
        var hasFfmpeg := HasFfmpeg(tools);
        if hasFfmpeg {
          var mp3Path := AM.Mp3Path(dest);
          var ffmpeg := GetFfmpegPath(tools);
          ReportProgress(Event(96.0, Processing, Literal(AM.ConvertingText)));
          if mp3Created {
            path := mp3Path;
          }
        }
      }
    }

    /** The rest of Audiomack's `download` once the streaming URL is known:
        the 55 % report, the transfer, the conversion, the completion report
        and the info returned. */
    method FetchAudiomack(config: Config, tools: Tools, s: AM.Session, streaming: string, m: AM.Metadata)
      returns (result: Result<Info>)
      modifies this, sink
      ensures var o := AM.Fetch(config, old(ffmpegPath), tools, s, streaming, m);
        && result == o.result && ffmpegPath == o.cache
        && (sink != null ==> sink.events == old(sink.events) + o.events)
    {
      ghost var before := if sink != null then sink.events else [];
      var fetching := Event(55.0, Downloading, Fetching(m.title));
      ReportProgress(fetching);
      var ext := AM.Extension(streaming);
      var dest := JoinPath(config.outputDir, AM.FileName(m, ext));
      if s.transfer.Failure? {
        return Failure(s.transfer.error);
      }
      var resp := s.transfer.value;
      var _ := DownloadFile(resp);
      ghost var transferred := if sink != null then sink.events else [];
      dest := ConvertToMp3(config.format, ext, dest, tools, s.mp3Created);
      ghost var conv := AM.Conversion(config.format, ext, JoinPath(config.outputDir, AM.FileName(m, ext)),
                                      old(ffmpegPath), tools, s.mp3Created);
      var done := Event(100.0, Finished, Completed(m.title));
      ReportProgress(done);
      result := Success(AM.ResultInfo(m, dest));
      AM.FetchAfterTransfer(config, old(ffmpegPath), tools, s, streaming, m);
      ghost var t := AM.TransferEvents(resp.chunks, resp.contentLength, 0);
      ReportedAfter(before + [fetching], t, conv.2);
      ReportedAround(before, fetching, t + conv.2, done, AM.Fetch(config, old(ffmpegPath), tools, s, streaming, m).events);
    }

    /** Audiomack's `download`, which overrides the base class's: the start
        report, the browsing, then the fetch of the streaming URL under the
        cleaned and capped names. */
    method DownloadAudiomack(config: Config, tools: Tools, s: AM.Session) returns (result: Result<Info>)
      modifies this, sink
      ensures var o := AM.Download(config, old(ffmpegPath), tools, s);
        && result == o.result && ffmpegPath == o.cache
        && (sink != null ==> sink.events == old(sink.events) + o.events)
    {
      ghost var before := if sink != null then sink.events else [];
      var start := Event(0.0, Downloading, Literal(AM.StartText));
      ReportProgress(start);
      var extracted := ExtractStreamingUrl(config.url, s.page);
      if extracted.Failure? || !Truthy(extracted.value.0) {
        AM.DownloadStopsEarly(config, ffmpegPath, tools, s);
        ReportedAfter(before, [start], AM.Extract(config.url, s.page).1);
        if extracted.Failure? {
          return Failure(extracted.error);
        }
        return Failure(AM.NoStreamingUrlError);
      }
      var (streamingUrl, metadata) := extracted.value;
      var m := AM.Capped(metadata);
      ghost var cache := ffmpegPath;
      result := FetchAudiomack(config, tools, s, streamingUrl.value, m);
      AM.DownloadAfterExtract(config, cache, tools, s);
      ReportedAfter(before, [start], AM.Extract(config.url, s.page).1);
      ReportedAfter(before, [start] + AM.Extract(config.url, s.page).1,
                    AM.Fetch(config, cache, tools, s, streamingUrl.value, m).events);
    }

    /** `download(config)` as the subclass defines it: Audiomack's own,
        the base class's for the others. */
    method Download(config: Config, w: World) returns (result: Result<Info>)
      modifies this, sink
      ensures DownloadedAs(platform, config, old(ffmpegPath), w, result, ffmpegPath, sink,
                           if sink != null then old(sink.events) else [], if sink != null then sink.events else [])
    {
      if platform == Audiomack {
        result := DownloadAudiomack(config, w.tools, w.session);
      } else {
        result := DownloadWithEngine(config, w.tools, w.engine);
      }
    }

    /** The last report of `download`: completion with the title, or the
        error the engine raised. */
    method ReportEnd(outcome: Result<Info>) returns (result: Result<Info>)
      modifies sink
      ensures result == outcome
      ensures sink != null ==> sink.events == old(sink.events) + [LastEvent(outcome)]
    {
      match outcome {
        case Success(info) =>
          ReportProgress(Event(100.0, Finished, Completed(TitleOr(info))));
          result := Success(info);
        case Failure(e) =>
          ReportProgress(Event(0.0, Error, Failed(e)));
          result := Failure(e);
      }
    }
  }
}
