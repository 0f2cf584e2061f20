# UniversalMediaDownloader core, modelled in Dafny

UniversalMediaDownloader fetches videos and audio from YouTube, X (Twitter),
Instagram and Audiomack. A `DownloadManager` looks at the URL and picks the
first of four downloaders whose domain list matches it. It keeps one
downloader per platform and hands the download to it. Three downloaders
build option mappings for the yt-dlp extraction engine and let the base
class run the engine. The base class reports progress through a callback:
a start event, the events its progress and post-processor hooks report,
and a final completion or error event. The Audiomack downloader overrides
`download`:

- A headless browser loads the page and clicks play.
- The metadata comes from the URL and the page heading.
- The first streaming request in the network log gives the file to fetch.
- The file is fetched over HTTP with its own progress events.
- It is named from cleaned and capped metadata.
- An m4a stream is converted to mp3 when audio was asked for and ffmpeg is available.

The model has these modules:

- `Text` (`text.dfy`): the Python string operations the core relies on (`lower`, `strip`, `split`, `join`, `title`, `in`, `os.path.join`).
- `Base` (`base.dfy`): the records, the domain test, the ffmpeg lookup, the two hooks, the base options and the format policy of `downloaders/base.py`.
- `YouTubeDownloader`, `TwitterDownloader`, `InstagramDownloader` (`youtube.dfy`, `twitter.dfy`, `instagram.dfy`): each platform's domain list and option builder.
- `AudiomackDownloader` (`audiomack.dfy`): Audiomack's metadata extraction, log scan, `clean`, file naming, transfer progress and the whole `download`, as functions.
- `Downloaders` (`downloaders.dfy`): the class `Downloader`, one instance per platform. Its `platform` field stands for the subclass. It holds the cached ffmpeg path and the progress callback. Its methods are the base class's `download` and Audiomack's.
- `Manager` (`manager.dfy`): the registry, the first-match search and the class `DownloadManager` with its downloader cache.

The outside world is a parameter:

- The progress callback is a `ProgressSink` object whose `events` grow by one per report. A `null` sink means no callback.
- yt-dlp is a function from options and URL to an `EngineRun`: the hook calls it makes and its result or exception text.
- The two ffmpeg lookups (`imageio_ffmpeg` and `shutil.which`) are a `Tools` value.
- The browser page is a `Page`: the heading text, the play-button failure and the parsed performance log.
- The HTTP response is its `content-length` and the sizes of the chunks read.
- Whether ffmpeg left an mp3 behind is a boolean.

Every download is also a function (`DownloadOutcome`) giving the result, the
events reported and the ffmpeg cache afterwards. The methods are proved
equal to those functions, and the lemmas state what the functions promise.

Behaviours of the code worth noting:

- Unlike the base class's `download`, which reports an `error` event before re-raising (`downloaders/base.py:181-217`), Audiomack's `download` raises without one (`downloaders/audiomack.py:172-242`). See `AudiomackDownloader.DownloadFailsQuietly` and `Downloaders.EngineDownloadReports`.
- `ffmpeg_location` is set only when the path is truthy, so an empty path counts as absent (`downloaders/base.py:166-168`).
- The configured `ffmpeg_path` never changes the format choice. `_has_ffmpeg` consults only the lookup (`Downloaders.EngineOptionsPolicy`).
- A yt-dlp hook status of `error` reports an error event, and a failed run reports a second one with the exception text.
- The domain test is a bare substring test, so any URL containing `x.com` (for example a `netflix.com` address) goes to X (Twitter) unless YouTube claims it (`Manager.XComGoesToTwitter`).
- The Audiomack id comes from the URL slug and is never cleaned. Truncating a cleaned name can leave a trailing space.

## Model

| member | source | states |
|---|---|---|
| Base.CanHandleIgnoresCase | downloaders/base.py:49-53 | `can_handle` gives the same answer for a URL and its lower-cased form |
| Base.RedundantDomain | downloaders/base.py:49-53 | a domain that contains another domain of the same list can be dropped without changing any answer of `can_handle` |
| Base.Resolve | downloaders/base.py:60-78 | a truthy cached path is returned unchanged; otherwise the imageio path wins, then a truthy `which` path; whatever is found is cached, and nothing found leaves the cache alone |
| Base.ResolveRepeat | downloaders/base.py:60-78 | asking for the ffmpeg path a second time with the same tools gives the same path and leaves the cache as the first call left it |
| Base.ResolveSticky | downloaders/base.py:62-63 | once a truthy path is cached, later lookups return it whatever the tools are |
| Base.TotalBytes | downloaders/base.py:90 | the total is `total_bytes` when non-zero, else `total_bytes_estimate`, else 0 |
| Base.DownloadPercent | downloaders/base.py:92 | the percent is downloaded·100/total for a positive total and 0 otherwise |
| Base.DownloadPercentBounds | downloaders/base.py:92 | while downloaded ≤ total the percent lies in [0, 100], and it is exactly 100 once everything has arrived |
| Base.ProgressHook | downloaders/base.py:84-118 | the progress hook reports exactly for `downloading`, `finished` and `error`: the computed percent with stripped speed and eta, the 95 % processing event, or the generic error event |
| Base.PostprocessorText | downloaders/base.py:125-132 | audio extraction takes precedence over metadata, which takes precedence over the generic text |
| Base.PostprocessorHook | downloaders/base.py:120-147 | the post-processor hook reports exactly for `started` (97 %) and `finished` (99 %), always as processing events |
| Base.HookEventsShape | downloaders/base.py:84-147 | every event a hook reports is a downloading, processing or error event, and a non-downloading one sits at 0, 95, 97 or 99 % |
| Base.BaseOptions | downloaders/base.py:149-174 | the base options never hold a key outside the eleven base keys |
| Base.BaseOptionsFixed | downloaders/base.py:153-158 | the output template sits under the output directory; playlists are off; retries and fragment retries are 10; fragment concurrency is 4 |
| Base.BaseOptionsHooks | downloaders/base.py:159-162 | one progress hook and one post-processor hook are registered, and the engine runs quiet without warnings |
| Base.BaseOptionsOptional | downloaders/base.py:165-172 | `ffmpeg_location` is present exactly when the configured or the found path is truthy, the configured one winning; `cookiefile` is present exactly when the cookies path is truthy |
| Base.Merge | downloaders/base.py:197-198 | `opts.update`: the keys are the union, platform values win, every other base value is kept |
| YouTubeDownloader.PlatformOptions | downloaders/youtube.py:18-43 | YouTube follows the format policy, always sets `age_limit` 0 and `nocheckcertificate`, and adds the metadata step after mp3 extraction for audio |
| YouTubeDownloader.MusicDomainRedundant | downloaders/youtube.py:11-16 | `music.youtube.com` adds nothing to the domain list, and any URL with `youtube.com` or `youtu.be` in it is claimed |
| TwitterDownloader.PlatformOptions | downloaders/twitter.py:18-39 | X follows the format policy with mp3 extraction only, and sets no key beyond the three policy keys |
| TwitterDownloader.MobileDomainsRedundant | downloaders/twitter.py:11-16 | the two `mobile.` domains add nothing to the list |
| TwitterDownloader.ClaimsAnyUrlContainingXCom | downloaders/twitter.py:11-16 | every URL containing `x.com` anywhere is claimed by X |
| InstagramDownloader.PlatformOptions | downloaders/instagram.py:17-46 | Instagram follows the format policy and always skips dash formats |
| InstagramDownloader.WwwDomainRedundant | downloaders/instagram.py:11-15 | `www.instagram.com` adds nothing to the domain list |
| AudiomackDownloader.WwwDomainRedundant | downloaders/audiomack.py:18 | `www.audiomack.com` adds nothing to the domain list |
| AudiomackDownloader.RunEnd | downloaders/audiomack.py:76 | a `[^...]+` group ends where the run of allowed characters ends: every character before is allowed, and the end of the URL or a stop character follows |
| AudiomackDownloader.SongPathAt | downloaders/audiomack.py:76 | a match of the song pattern at an index has a non-empty artist without `/` and a non-empty slug without `/` or `?`; the anchor, artist, `/song/` and slug occur one after the other there; and the slug is greedy, so the end of the URL, a `/` or a `?` follows it |
| AudiomackDownloader.PatternOccurs | downloaders/audiomack.py:76 | the pieces of a match side by side are one occurrence of the whole pattern text |
| AudiomackDownloader.SongPathAtComplete | downloaders/audiomack.py:76 | whenever `audiomack.com/<artist>/song/<slug>` with an allowed artist and slug occurs at an index, the pattern matches there, its artist group is exactly that artist and its slug group starts with that slug |
| AudiomackDownloader.SongPathFrom | downloaders/audiomack.py:76 | `re.search` finds a match exactly when some index matches, and returns the match at the lowest such index |
| AudiomackDownloader.PrettifyShape | downloaders/audiomack.py:78-79 | prettifying a URL part keeps its length and removes every hyphen |
| AudiomackDownloader.NonBlankLinesStripped | downloaders/audiomack.py:86 | every line the heading filter keeps is non-empty and neither starts nor ends with whitespace |
| AudiomackDownloader.RefineFromHeading | downloaders/audiomack.py:83-93 | the heading sets artist and title from two or more lines, only the title from one line, and nothing from none or no heading; the id is never touched |
| AudiomackDownloader.PageMetadataNonEmpty | downloaders/audiomack.py:46-93 | the extracted title, artist and id are never empty, and a title or artist taken from the URL holds no hyphen |
| AudiomackDownloader.FirstStreamingUrl | downloaders/audiomack.py:122-135 | no URL exactly when no entry is a streaming request; otherwise the URL of the first such entry |
| AudiomackDownloader.ScanLog | downloaders/audiomack.py:124-135 | the scanning loop with its `break` finds the first streaming request's URL |
| AudiomackDownloader.SanitiseChar | downloaders/audiomack.py:187-188 | no illegal file-name character survives, and whitespace stays whitespace |
| AudiomackDownloader.CollapseSpaceShape | downloaders/audiomack.py:189 | collapsing whitespace leaves only single plain spaces, keeps emptiness and the space-ness of both ends, and keeps legality |
| AudiomackDownloader.CleanIsClean | downloaders/audiomack.py:186-190 | a cleaned name has no illegal character, no whitespace but single plain spaces, and no space at either end |
| AudiomackDownloader.CleanHasNoLineBreak | downloaders/audiomack.py:187 | a cleaned name holds no line break |
| AudiomackDownloader.CleanFixesClean | downloaders/audiomack.py:186-190 | cleaning a name that is already clean changes nothing |
| AudiomackDownloader.CleanIdempotent | downloaders/audiomack.py:186-190 | cleaning twice is cleaning once |
| AudiomackDownloader.CleanEmptyIff | downloaders/audiomack.py:186-190 | a name cleans to the empty string exactly when it is all whitespace |
| AudiomackDownloader.CapKeepsSafety | downloaders/audiomack.py:192-193 | a capped clean name is within the cap, keeps every safety property, starts with no space, and is empty exactly when the raw name is all whitespace |
| AudiomackDownloader.Capped | downloaders/audiomack.py:192-193 | the title is capped at 100 and the artist at 50 characters, and the id is kept |
| AudiomackDownloader.Extension | downloaders/audiomack.py:201 | the extension is `m4a` exactly when the streaming URL contains `.m4a`, and `mp3` otherwise |
| AudiomackDownloader.FileNameLayout | downloaders/audiomack.py:203 | the file name is the artist, ` - `, the title, ` [`, the id, `].` and the extension, in that order and nothing else |
| AudiomackDownloader.LastIndexOf | downloaders/audiomack.py:213 | the index `rsplit` splits at holds the character and none after it does; without one the character is absent |
| AudiomackDownloader.Mp3PathReplacesExtension | downloaders/audiomack.py:213 | the mp3 path replaces the text after the last dot with `mp3` |
| AudiomackDownloader.ResultPathOfM4a | downloaders/audiomack.py:212-230 | an m4a download returns the same name with `.mp3` when a conversion ran and left the mp3, and the m4a file otherwise |
| AudiomackDownloader.TransferPercentRises | downloaders/audiomack.py:165 | the transfer percent grows strictly with the bytes received |
| AudiomackDownloader.TransferPercentBounds | downloaders/audiomack.py:165 | the transfer percent is above 60, and at most 95 exactly while no more than the announced length has arrived |
| AudiomackDownloader.TransferEventsRise | downloaders/audiomack.py:151-170 | the transfer reports nothing without a length; otherwise strictly rising downloading events above 60 %, within 95 % while the length holds, the last at the percent of everything received |
| AudiomackDownloader.TransferLaterAbove | downloaders/audiomack.py:157-170 | every later transfer event is above the percent already reached |
| AudiomackDownloader.Extract | downloaders/audiomack.py:38-140 | extraction fails exactly when the play button is missing, with the error naming it after the three loading events; otherwise it reports all five events and returns metadata with an id and a URL on the streaming host, if any |
| AudiomackDownloader.ExtractFound | downloaders/audiomack.py:38-140 | a successful extraction returns the first streaming URL of the log and the URL metadata refined by the heading |
| AudiomackDownloader.ExtractEvents | downloaders/audiomack.py:49-120 | the browsing reports only downloading events, rising from 10 to 50 % |
| AudiomackDownloader.Conversion | downloaders/audiomack.py:212-230 | the conversion runs, with its 96 % event, exactly for audio, an m4a stream and ffmpeg found; the returned path is the mp3 only if the conversion left one |
| AudiomackDownloader.FetchReports | downloaders/audiomack.py:195-242 | the fetch starts with the 55 % event; it fails exactly when the transfer fails and then reports nothing loud; on success the only loud event is the final completion with the title |
| AudiomackDownloader.DownloadFailsQuietly | downloaders/audiomack.py:172-183 | a failed Audiomack download starts with its start event and reports neither an error nor a completion |
| AudiomackDownloader.DownloadCompletes | downloaders/audiomack.py:172-242 | a successful Audiomack download starts with its start event and ends with the one completion event naming the returned title |
| AudiomackDownloader.DownloadResult | downloaders/audiomack.py:172-242 | success means the play button was found and the log had a streaming URL; the result holds exactly title, artist, id and file path, with short legal names, an id, and an mp3 or m4a file inside the output directory, m4a exactly when the stream was m4a and no conversion produced an mp3 |
| AudiomackDownloader.FilePlacement | downloaders/audiomack.py:203-230 | the saved file lies inside the output directory, ends in `.mp3` or `.m4a`, and ends in `.m4a` exactly for an unconverted m4a stream |
| Downloaders.Platform.PlatformOptions | downloaders/base.py:176-179 | the three engine platforms follow the format policy; Audiomack's options are empty |
| Downloaders.PlatformKeysApart | downloaders/base.py:197-198 | no platform option overrides a base option |
| Downloaders.NamesDistinct | downloaders/manager.py:13-18 | two platforms have the same `PLATFORM_NAME` exactly when they are the same platform |
| Downloaders.EngineDownloadReports | downloaders/base.py:181-217 | an engine download returns the engine's outcome, reports the start event first and the completion or error event last, and nothing before the last event is a completion or carries an exception text |
| Downloaders.EngineOptionsPolicy | downloaders/base.py:196-198 | the options handed to the engine follow the format policy for whether ffmpeg is found; the configured ffmpeg path plays no part |
| Downloaders.MergeKeepsPolicy | downloaders/base.py:197-198 | updating base options with policy-following platform options keeps the policy |
| Downloaders.EngineOptionsKeepBase | downloaders/base.py:196-198 | every base option reaches the engine unchanged, and every other key is a platform key |
| Downloaders.EngineOptionsFfmpeg | downloaders/base.py:165-168 | the engine gets `ffmpeg_location` exactly when the configured or the found path is truthy, the configured one winning |
| Downloaders.Downloader.constructor | downloaders/base.py:45-47 | a new downloader keeps its callback and has no cached ffmpeg path |
| Downloaders.Downloader.ReportProgress | downloaders/base.py:55-58 | the event reaches the callback when there is one, and nothing happens otherwise |
| Downloaders.Downloader.GetFfmpegPath | downloaders/base.py:60-78 | the path returned and the new cache are those of `Resolve` |
| Downloaders.Downloader.HasFfmpeg | downloaders/base.py:80-82 | ffmpeg is available exactly when the lookup finds a path, even an empty one |
| Downloaders.Downloader.GetBaseOptions | downloaders/base.py:149-174 | the lookup runs only when no truthy ffmpeg path is configured, and the options are the base options for what it found |
| Downloaders.Downloader.GetPlatformOptions | downloaders/base.py:176-179 | only a video request of an engine platform asks whether ffmpeg is available, and the options follow that answer |
| Downloaders.Downloader.GetEngineOptions | downloaders/base.py:196-198 | the options and the cache afterwards are those of the specification function |
| Downloaders.Downloader.ReportHookCalls | downloaders/base.py:84-147 | every hook call adds the event it yields, in order, and nothing else |
| Downloaders.Downloader.DownloadWithEngine | downloaders/base.py:181-217 | the base class's download returns, reports and caches what `EngineDownload` specifies |
| Downloaders.Downloader.RunEngine | downloaders/base.py:200-217 | the engine's outcome is returned after its hook events and the completion or error event |
| Downloaders.Downloader.ExtractStreamingUrl | downloaders/audiomack.py:38-140 | returns and reports what `Extract` specifies |
| Downloaders.Downloader.DownloadFile | downloaders/audiomack.py:142-170 | the bytes written are those received before the first empty read, and the events are the transfer events |
| Downloaders.Downloader.ConvertToMp3 | downloaders/audiomack.py:212-230 | the path, cache and events are those of `Conversion` |
| Downloaders.Downloader.FetchAudiomack | downloaders/audiomack.py:195-242 | the result, cache and events are those of `Fetch` |
| Downloaders.Downloader.DownloadAudiomack | downloaders/audiomack.py:172-242 | Audiomack's download returns, reports and caches what `AudiomackDownloader.Download` specifies |
| Downloaders.Downloader.Download | downloaders/base.py:181-217 | every downloader does what `DownloadOutcome` gives for its platform: Audiomack's override or the base class's |
| Downloaders.Downloader.ReportEnd | downloaders/base.py:204-216 | the final event is the completion with the title (or `archivo`) or the error with the exception text |
| Manager.FirstMatchSpec | downloaders/manager.py:31-39 | the search finds nothing exactly when no entry claims the URL, and otherwise the first entry that does |
| Manager.FirstMatchAt | downloaders/manager.py:46-51 | in a list without repeats, the entry at `k` is found exactly when it claims the URL and no earlier entry does |
| Manager.SupportedPlatforms | downloaders/manager.py:58-61 | the names are those of the registry entries, in registry order |
| Manager.SupportedPlatformsInOrder | downloaders/manager.py:13-18 | the supported platforms are YouTube, X (Twitter), Instagram, Audiomack, in that order |
| Manager.UnsupportedMessageListsAll | downloaders/manager.py:41-44 | the unsupported-URL message lists the four names, comma-separated, in registry order |
| Manager.RegistryHasAll | downloaders/manager.py:13-18 | every platform is in the registry |
| Manager.UnknownIsNoName | downloaders/manager.py:46-51 | no platform is called `Desconocida`, so the answer tells a match from no match |
| Manager.DetectFirstMatch | downloaders/manager.py:46-51 | `detect_platform` names a platform exactly when that platform claims the URL and no earlier one does |
| Manager.DetectUnknown | downloaders/manager.py:46-51 | `detect_platform` answers `Desconocida` exactly when no platform claims the URL |
| Manager.DetectIgnoresCase | downloaders/manager.py:46-51 | a URL and its lower-cased form are detected as the same platform |
| Manager.FirstMatchAgrees | downloaders/manager.py:31-39 | URLs every platform treats alike get the same first match |
| Manager.YouTubeWins | downloaders/manager.py:13-18 | a URL YouTube claims goes to YouTube, whatever else claims it |
| Manager.XComGoesToTwitter | downloaders/manager.py:13-18 | any URL containing `x.com` goes to X (Twitter) unless YouTube claims it |
| Manager.DownloadManager.constructor | downloaders/manager.py:27-29 | the manager starts with its callback and no cached downloader |
| Manager.DownloadManager.GetDownloader | downloaders/manager.py:31-44 | fails exactly when no platform claims the URL, with the message listing all platforms and the cache untouched; otherwise returns the cached downloader of the first claiming platform, creating it with the manager's callback on first use and changing nothing else |
| Manager.DownloadManager.Download | downloaders/manager.py:53-56 | an unsupported URL fails with that message and changes nothing; otherwise the platform's downloader is cached, and the result, its ffmpeg cache and the reported events are exactly those of its `download`, started from the cached downloader's ffmpeg path when there is one; every other cached downloader stays in the cache, the same instance with the same ffmpeg path |
| Manager.DownloadManager.GetSupportedPlatforms | downloaders/manager.py:58-61 | the loop returns the four names in registry order |
| Manager.DownloadManager.DetectPlatformOf | downloaders/manager.py:46-51 | the loop with its early return gives the platform of the first match, or `Desconocida` |
| Text.Strip | downloaders/audiomack.py:85-86 | the stripped text is no longer than the original and neither starts nor ends with whitespace |
| Text.StripBounds | downloaders/audiomack.py:85-86 | stripping keeps a contiguous part and cuts only whitespace |
| Text.JoinSplit | downloaders/audiomack.py:86 | splitting on a character and joining back gives the text again |
| Text.TitleIdempotent | downloaders/audiomack.py:78-79 | title-casing twice is title-casing once |
| Text.LowerIdempotent | downloaders/base.py:52 | lower-casing twice is lower-casing once |

## Left out

- The user interface (`ui/`, `main.py`), threads and the package `__init__.py` are not part of this model.
- yt-dlp itself is an arbitrary function from options and URL to the hook calls it makes and its outcome. What it downloads, and the `with` block's exit, are not modelled.
- The Selenium driver (`_get_driver`), the sleeps, the cookie-banner click and the overlay script have no effect the model can see. The browser is reduced to the page heading, the play-button failure and the performance log.
- The JSON decoding of log entries is not modelled. An entry that fails to parse is `Malformed` and is skipped, as the `except: continue` does.
- File I/O (`os.makedirs`, writing chunks, `os.path.exists`, `os.remove`), the HTTP request headers and timeout, and errors in the middle of a stream are not modelled. The response is its length and chunk sizes, or a failure before the first read.
- The ffmpeg subprocess is reduced to whether an mp3 file exists afterwards.
- Hook records hold `None` and missing keys alike as absent, and a `downloaded_bytes` of `None` is not distinguished from 0.
- Base.DownloadPercent: computes with exact reals, not floating point. Byte counts (`downloaded_bytes`, `total_bytes`, `total_bytes_estimate`) are whole numbers, so a fractional estimate from yt-dlp cannot be represented. The `.1f` formatting of the message is kept symbolic (`DownloadingAt`), as are the KB figures of the transfer messages.
- AudiomackDownloader.TransferPercentBounds: uses exact reals, so floating-point rounding of `60 + downloaded / total * 35` is not modelled.
- Text.Lower: maps only ASCII letters. Python's full Unicode case mapping is not modelled.
- Text.TitleIdempotent: covers the ASCII `title()` only, for the same reason.
- Text.JoinPath: follows POSIX rules for a relative name. Windows separators and drive letters are not modelled.
- The progress callback never raises. In the source the "finished" report sits inside the `try` of `download` (`downloaders/base.py:200-217`), so a callback that raised there would be followed by an error report; the model's single final event (`Downloaders.EngineDownloadReports`) relies on the callback returning normally.
- Manager.DownloadManager.Download: the `ValueError` and the exceptions raised by downloaders are a `Failure` carrying the message. Exception types are not modelled.
- AudiomackDownloader.Extract: an exception from the browser other than the missing play button (page load, log retrieval) is not modelled.
