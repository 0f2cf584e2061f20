/** What every downloader shares (downloaders/base.py): the records passed
    between the manager, the downloaders and the caller, the domain test
    `can_handle`, the two hooks that turn the extraction engine's raw status
    records into progress events, and the base option set that every
    platform's options are laid over. */
module Base {
  import opened Wrappers
  import opened Text

  datatype OutputFormat = Video | Audio

  datatype Status = Idle | Downloading | Processing | Finished | Error

  /** The text of a progress event. Fixed texts are kept verbatim; texts the
      source formats from a value keep the value, not the formatting. */
  datatype Message =
    | Literal(text: string)
    | DownloadingAt(percent: real)        // "Descargando… {percent:.1f}%"
    | Completed(title: string)            // "Descarga completa: {title}"
    | Failed(reason: string)              // "Error: {e}"
    | Transferred(kb: int, totalKb: int)  // "Descargando... {kb} KB / {totalKb} KB"
    | Fetching(title: string)             // "Descargando: {title}"

  /** DownloadProgress */
  datatype Progress = Progress(percent: real, speed: string, eta: string, status: Status, message: Message)

  /** A DownloadProgress built with the default (empty) speed and eta. */
  function Event(percent: real, status: Status, message: Message): Progress {
    Progress(percent, "", "", status, message)
  }

  const StartingText := "Iniciando descarga…"
  const ProcessingFileText := "Procesando archivo…"
  const DownloadErrorText := "Error en la descarga"
  const ExtractingAudioText := "Extrayendo audio…"
  const AddingMetadataText := "Añadiendo metadatos…"
  const ProcessingText := "Procesando…"
  const FinalizingText := "Finalizando…"

  /** The progress callback handed to every downloader: it receives the
      events in the order they are reported. */
  class ProgressSink {
    var events: seq<Progress>

    constructor ()
      ensures events == []
    {
      events := [];
    }
  }

  /** What one download leaves behind: the result (the info mapping or the
      text of the exception raised), the events reported in order, and the
      downloader's cached ffmpeg path afterwards. */
  datatype Outcome = Outcome(result: Result<Info>, events: seq<Progress>, cache: Option<string>)

  /** The percents of `es` never go down. */
  predicate Rising(es: seq<Progress>) {
    forall i, j :: 0 <= i < j < |es| ==> es[i].percent <= es[j].percent
  }

  /** Every percent of `es` lies in `[lo, hi]`. */
  predicate PercentsWithin(es: seq<Progress>, lo: real, hi: real) {
    forall i :: 0 <= i < |es| ==> lo <= es[i].percent <= hi
  }

  /** DownloadConfig */
  datatype Config = Config(
    url: string,
    outputDir: string,
    format: OutputFormat,
    cookiesFile: Option<string>,
    ffmpegPath: Option<string>)

  /** Python truthiness of an optional path: present and not empty. */
  predicate Truthy(o: Option<string>) {
    o.Some? && o.value != ""
  }

  // ---------------------------------------------------------------------
  // Finding ffmpeg

  /** What the two lookups of `_get_ffmpeg_path` give: the executable
      bundled with imageio-ffmpeg (`None` when importing it or asking it
      fails) and `shutil.which("ffmpeg")`. */
  datatype Tools = Tools(bundled: Option<string>, onPath: Option<string>)

  /** `_get_ffmpeg_path` on the cached path `cache`: the path it returns and
      the cache it leaves. A truthy cache answers at once; otherwise the
      bundled executable wins, then the one on the search path; a failed
      lookup leaves the cache as it was. */
  function Resolve(cache: Option<string>, tools: Tools): (r: (Option<string>, Option<string>))
    ensures Truthy(cache) ==> r == (cache, cache)
    ensures r.0.Some? ==> r.1 == r.0
    ensures r.0.None? ==> r.1 == cache && tools.bundled.None? && !Truthy(tools.onPath)
    ensures !Truthy(cache) ==> (r.0 == tools.bundled || (tools.bundled.None? && r.0 == tools.onPath && Truthy(r.0)) || r.0.None?)
  {
    if Truthy(cache) then (cache, cache)
    else if tools.bundled.Some? then (tools.bundled, tools.bundled)
    else if Truthy(tools.onPath) then (tools.onPath, tools.onPath)
    else (None, cache)
  }

  /** `_has_ffmpeg`: the lookup found something (even an empty path). */
  predicate FfmpegFound(cache: Option<string>, tools: Tools) {
    Resolve(cache, tools).0.Some?
  }

  /** Asking again with the same tools gives the same answer and leaves the
      cache where the first call left it. */
  lemma ResolveRepeat(cache: Option<string>, tools: Tools)
    ensures var (found, c) := Resolve(cache, tools); Resolve(c, tools) == (found, c)
  {
  }

  /** Once a truthy path is cached, the tools no longer matter: every later
      call returns that path. */
  lemma ResolveSticky(cache: Option<string>, tools: Tools, later: Tools)
    requires Truthy(Resolve(cache, tools).1)
    ensures Resolve(Resolve(cache, tools).1, later) == Resolve(cache, tools)
  {
  }

  // ---------------------------------------------------------------------
  // can_handle

  /** `any(domain in url.lower() for domain in domains)` */
  predicate CanHandle(domains: seq<string>, url: string) {
    exists i :: 0 <= i < |domains| && Contains(Lower(url), domains[i])
  }

  /** The domain test gives the same answer for a URL and its lower-cased
      form. */
  lemma {:induction false} CanHandleIgnoresCase(domains: seq<string>, url: string)
    ensures CanHandle(domains, Lower(url)) == CanHandle(domains, url)
  {
    LowerIdempotent(url);
  }

  /** A domain that contains another entry of the same list adds nothing:
      dropping it gives the same answer for every URL. */
  lemma {:induction false} RedundantDomain(domains: seq<string>, keep: nat, drop: nat, url: string)
    requires keep < |domains| && drop < |domains| && keep != drop
    requires Contains(domains[drop], domains[keep])
    ensures CanHandle(domains[..drop] + domains[drop + 1..], url) == CanHandle(domains, url)
  {
    var rest := domains[..drop] + domains[drop + 1..];
    var u := Lower(url);
    var k := if keep < drop then keep else keep - 1;
    assert rest[k] == domains[keep];
    if CanHandle(domains, url) {
      var i :| 0 <= i < |domains| && Contains(u, domains[i]);
      if i == drop {
        ContainsTransitive(u, domains[drop], domains[keep]);
        assert Contains(u, rest[k]);
      } else {
        var j := if i < drop then i else i - 1;
        assert rest[j] == domains[i];
      }
    }
    if CanHandle(rest, url) {
      var j :| 0 <= j < |rest| && Contains(u, rest[j]);
      var i := if j < drop then j else j + 1;
      assert rest[j] == domains[i];
    }
  }

  // ---------------------------------------------------------------------
  // The progress hook

  /** The status record the extraction engine passes to the progress hook;
      `None` is a key that is absent (or holds None). */
  datatype ProgressInfo = ProgressInfo(
    status: Option<string>,
    totalBytes: Option<int>,
    totalBytesEstimate: Option<int>,
    downloadedBytes: Option<int>,
    speedStr: Option<string>,
    etaStr: Option<string>)

  /** `d.get("total_bytes") or d.get("total_bytes_estimate") or 0`: the first
      of the two that is present and not zero, else 0. */
  function TotalBytes(d: ProgressInfo): (t: int)
    ensures d.totalBytes.Some? && d.totalBytes.value != 0 ==> t == d.totalBytes.value
    ensures d.totalBytes.GetOr(0) == 0 && d.totalBytesEstimate.Some? ==> t == d.totalBytesEstimate.value
    ensures d.totalBytes.GetOr(0) == 0 && d.totalBytesEstimate.GetOr(0) == 0 ==> t == 0
  {
    if d.totalBytes.Some? && d.totalBytes.value != 0 then d.totalBytes.value
    else if d.totalBytesEstimate.Some? && d.totalBytesEstimate.value != 0 then d.totalBytesEstimate.value
    else 0
  }

  /** `(downloaded * 100 / total) if total > 0 else 0` */
  function DownloadPercent(downloaded: int, total: int): (p: real)
    ensures total <= 0 ==> p == 0.0
    ensures total > 0 ==> p * (total as real) == (downloaded as real) * 100.0
  {
    if total > 0 then (downloaded as real) * 100.0 / (total as real) else 0.0
  }

  /** The percent lies between 0 and 100 while no more than the total has
      arrived. */
  lemma DownloadPercentBounds(downloaded: int, total: int)
    requires 0 <= downloaded <= total
    ensures 0.0 <= DownloadPercent(downloaded, total) <= 100.0
    ensures total > 0 && downloaded == total ==> DownloadPercent(downloaded, total) == 100.0
  {
    if total > 0 {
      var p := DownloadPercent(downloaded, total);
      assert p * (total as real) <= 100.0 * (total as real);
    }
  }

  /** The progress hook: which event a status record yields, if any. */
  function ProgressHook(d: ProgressInfo): (r: Option<Progress>)
    ensures r.Some? <==> d.status.GetOr("") in {"downloading", "finished", "error"}
    ensures d.status == Some("downloading") ==>
      var pct := DownloadPercent(d.downloadedBytes.GetOr(0), TotalBytes(d));
      r == Some(Progress(pct, Strip(d.speedStr.GetOr("")), Strip(d.etaStr.GetOr("")),
                         Downloading, DownloadingAt(pct)))
    ensures d.status == Some("finished") ==> r == Some(Event(95.0, Processing, Literal(ProcessingFileText)))
    ensures d.status == Some("error") ==> r == Some(Event(0.0, Error, Literal(DownloadErrorText)))
  {
    var status := d.status.GetOr("");
    if status == "downloading" then
      var total := TotalBytes(d);
      var downloaded := d.downloadedBytes.GetOr(0);
      var pct := DownloadPercent(downloaded, total);
      Some(Progress(pct, Strip(d.speedStr.GetOr("")), Strip(d.etaStr.GetOr("")),
                    Downloading, DownloadingAt(pct)))
    else if status == "finished" then
      Some(Event(95.0, Processing, Literal(ProcessingFileText)))
    else if status == "error" then
      Some(Event(0.0, Error, Literal(DownloadErrorText)))
    else
      None
  }

  // ---------------------------------------------------------------------
  // The post-processor hook

  datatype PostprocessorInfo = PostprocessorInfo(status: Option<string>, postprocessor: Option<string>)

  /** Which message a running post-processor gets: audio extraction first,
      then metadata, then the generic one. */
  function PostprocessorText(pp: string): (m: string)
    ensures Contains(pp, "ExtractAudio") ==> m == ExtractingAudioText
    ensures !Contains(pp, "ExtractAudio") && Contains(pp, "Metadata") ==> m == AddingMetadataText
    ensures !Contains(pp, "ExtractAudio") && !Contains(pp, "Metadata") ==> m == ProcessingText
  {
    if Contains(pp, "ExtractAudio") then ExtractingAudioText
    else if Contains(pp, "Metadata") then AddingMetadataText
    else ProcessingText
  }

  /** The post-processor hook: 97 when a step starts, 99 when it finishes,
      nothing for any other status. */
  function PostprocessorHook(d: PostprocessorInfo): (r: Option<Progress>)
    ensures r.Some? <==> d.status.GetOr("") in {"started", "finished"}
    ensures r.Some? ==> r.value.status == Processing && r.value.speed == "" && r.value.eta == ""
    ensures d.status == Some("started") ==>
      r.value.percent == 97.0 && r.value.message == Literal(PostprocessorText(d.postprocessor.GetOr("")))
    ensures d.status == Some("finished") ==> r.value.percent == 99.0 && r.value.message == Literal(FinalizingText)
  {
    var status := d.status.GetOr("");
    if status == "started" then
      Some(Event(97.0, Processing, Literal(PostprocessorText(d.postprocessor.GetOr("")))))
    else if status == "finished" then
      Some(Event(99.0, Processing, Literal(FinalizingText)))
    else
      None
  }

  // ---------------------------------------------------------------------
  // The extraction engine, seen from outside

  /** One call the engine makes into a registered hook. */
  datatype HookCall = OnProgress(progress: ProgressInfo) | OnPostprocess(postprocess: PostprocessorInfo)

  /** The metadata mapping a download returns. */
  type Info = map<string, string>

  /** What one run of the engine does: the hook calls it makes, in order,
      and then either the info mapping or the exception it raises. */
  datatype EngineRun = EngineRun(calls: seq<HookCall>, outcome: Result<Info>)

  function HookEvent(c: HookCall): Option<Progress> {
    match c
    case OnProgress(d) => ProgressHook(d)
    case OnPostprocess(d) => PostprocessorHook(d)
  }

  /** The event one hook call yields, as a sequence of zero or one. */
  function Yield(c: HookCall): (r: seq<Progress>)
    ensures |r| <= 1
  {
    match HookEvent(c) case Some(e) => [e] case None => []
  }

  /** The events the hooks report for a sequence of hook calls. */
  function HookEvents(calls: seq<HookCall>): (r: seq<Progress>)
    ensures |r| <= |calls|
  {
    if calls == [] then [] else Yield(calls[0]) + HookEvents(calls[1..])
  }

  /** Every event a hook reports is a download, processing or error event,
      and its percent is one of the fixed markers unless it is a download
      event. */
  lemma {:induction false} HookEventsShape(calls: seq<HookCall>)
    ensures forall e :: e in HookEvents(calls) ==>
      && e.status in {Downloading, Processing, Error}
      && (e.status != Downloading ==> e.percent in {0.0, 95.0, 97.0, 99.0})
  {
    if calls != [] {
      HookEventsShape(calls[1..]);
    }
  }

  // ---------------------------------------------------------------------
  // Options handed to the engine

  datatype HookKind = ProgressHookFn | PostprocessorHookFn

  /** A value in the engine's options mapping. */
  datatype Value =
    | Bool(b: bool)
    | Int(i: int)
    | Str(s: string)
    | List(items: seq<Value>)
    | Dict(entries: map<string, Value>)
    | Hook(kind: HookKind)

  type Options = map<string, Value>

  const OutputTemplate := "%(title).120s [%(id)s].%(ext)s"

  /** Every key the base options may hold. */
  const BaseKeys: set<string> := {
    "outtmpl", "noplaylist", "retries", "fragment_retries", "concurrent_fragment_downloads",
    "progress_hooks", "postprocessor_hooks", "quiet", "no_warnings", "ffmpeg_location", "cookiefile"
  }

  /** The base options. `resolved` is what `_get_ffmpeg_path()` returned,
      which is asked only when the configured path is not truthy. */
  function BaseOptions(config: Config, resolved: Option<string>): (r: Options)
    ensures r.Keys <= BaseKeys
  {
    var fixed := map[
      "outtmpl" := Str(JoinPath(config.outputDir, OutputTemplate)),
      "noplaylist" := Bool(true),
      "retries" := Int(10),
      "fragment_retries" := Int(10),
      "concurrent_fragment_downloads" := Int(4),
      "progress_hooks" := List([Hook(ProgressHookFn)]),
      "postprocessor_hooks" := List([Hook(PostprocessorHookFn)]),
      "quiet" := Bool(true),
      "no_warnings" := Bool(true)
    ];
    var ffmpeg := if Truthy(config.ffmpegPath) then config.ffmpegPath else resolved;
    var withFfmpeg := if Truthy(ffmpeg) then fixed["ffmpeg_location" := Str(ffmpeg.value)] else fixed;
    if Truthy(config.cookiesFile) then withFfmpeg["cookiefile" := Str(config.cookiesFile.value)] else withFfmpeg
  }

  /** The fixed download settings: the output template under the output
      directory, single videos only, 10 retries of each kind, 4 concurrent
      fragments. */
  lemma BaseOptionsFixed(config: Config, resolved: Option<string>)
    ensures var r := BaseOptions(config, resolved);
      && "outtmpl" in r && r["outtmpl"] == Str(JoinPath(config.outputDir, OutputTemplate))
      && "noplaylist" in r && r["noplaylist"] == Bool(true)
      && "retries" in r && r["retries"] == Int(10)
      && "fragment_retries" in r && r["fragment_retries"] == Int(10)
      && "concurrent_fragment_downloads" in r && r["concurrent_fragment_downloads"] == Int(4)
  {
  }

  /** The fixed reporting settings: one progress hook and one
      post-processor hook, and the engine's own output silenced. */
  lemma BaseOptionsHooks(config: Config, resolved: Option<string>)
    ensures var r := BaseOptions(config, resolved);
      && "progress_hooks" in r && r["progress_hooks"] == List([Hook(ProgressHookFn)])
      && "postprocessor_hooks" in r && r["postprocessor_hooks"] == List([Hook(PostprocessorHookFn)])
      && "quiet" in r && r["quiet"] == Bool(true)
      && "no_warnings" in r && r["no_warnings"] == Bool(true)
  {
  }

  /** `ffmpeg_location` is set when the configured path is truthy (and is
      that path) or, failing that, when the resolved one is (and is that
      one); `cookiefile` is set exactly when the configured cookies file is
      truthy. */
  lemma BaseOptionsOptional(config: Config, resolved: Option<string>)
    ensures var r := BaseOptions(config, resolved);
      && ("ffmpeg_location" in r <==> Truthy(config.ffmpegPath) || Truthy(resolved))
      && (Truthy(config.ffmpegPath) ==> r["ffmpeg_location"] == Str(config.ffmpegPath.value))
      && (!Truthy(config.ffmpegPath) && Truthy(resolved) ==> r["ffmpeg_location"] == Str(resolved.value))
      && ("cookiefile" in r <==> Truthy(config.cookiesFile))
      && (Truthy(config.cookiesFile) ==> r["cookiefile"] == Str(config.cookiesFile.value))
  {
  }

  /** `opts.update(platform)`: every key of `platform` wins, every other key
      of `base` is kept, and nothing else appears. */
  function Merge(base: Options, platform: Options): (r: Options)
    ensures r.Keys == base.Keys + platform.Keys
    ensures forall k :: k in platform ==> r[k] == platform[k]
    ensures forall k :: k in base && k !in platform ==> r[k] == base[k]
  {
    base + platform
  }

  // ---------------------------------------------------------------------
  // The format-selection policy every extraction-engine platform follows

  const BestAudio := Str("bestaudio/best")
  const BestVideoAndAudio := Str("bestvideo+bestaudio/best")
  const BestSingle := Str("best")
  const Mp4 := Str("mp4")
  const ExtractMp3: Value := Dict(map[
    "key" := Str("FFmpegExtractAudio"),
    "preferredcodec" := Str("mp3"),
    "preferredquality" := Str("192")
  ])
  const EmbedMetadata: Value := Dict(map["key" := Str("FFmpegMetadata")])

  /** Audio: best audio-only stream, first post-processing step extracts
      mp3 at quality 192, no merge container. */
  predicate SelectsAudio(o: Options) {
    && "format" in o && o["format"] == BestAudio
    && "postprocessors" in o && o["postprocessors"].List?
    && |o["postprocessors"].items| >= 1 && o["postprocessors"].items[0] == ExtractMp3
    && "merge_output_format" !in o
  }

  /** Video with ffmpeg: separate best video and audio, muxed into mp4, no
      post-processing steps. */
  predicate MuxesVideo(o: Options) {
    && "format" in o && o["format"] == BestVideoAndAudio
    && "merge_output_format" in o && o["merge_output_format"] == Mp4
    && "postprocessors" !in o
  }

  /** Video without ffmpeg: one pre-muxed stream, nothing to merge. */
  predicate SelectsSingleStream(o: Options) {
    && "format" in o && o["format"] == BestSingle
    && "merge_output_format" !in o
    && "postprocessors" !in o
  }

  predicate FollowsFormatPolicy(o: Options, format: OutputFormat, hasFfmpeg: bool) {
    match format
    case Audio => SelectsAudio(o)
    case Video => if hasFfmpeg then MuxesVideo(o) else SelectsSingleStream(o)
  }
}
