/** downloaders/youtube.py: the YouTube domains and option builder. */
module YouTubeDownloader {
  import opened Text
  import opened Base

  const PlatformName := "YouTube"
  const SupportedDomains: seq<string> := ["youtube.com", "youtu.be", "youtube-nocookie.com", "music.youtube.com"]

  /** `_get_platform_options`: age filtering and certificate checks are
      always off; audio also tags metadata after extracting mp3. */
  function PlatformOptions(format: OutputFormat, hasFfmpeg: bool): (r: Options)
    ensures FollowsFormatPolicy(r, format, hasFfmpeg)
    ensures "age_limit" in r && r["age_limit"] == Int(0)
    ensures "nocheckcertificate" in r && r["nocheckcertificate"] == Bool(true)
    ensures format == Audio ==> r["postprocessors"] == List([ExtractMp3, EmbedMetadata])
    ensures r.Keys <= {"age_limit", "nocheckcertificate", "format", "postprocessors", "merge_output_format"}
  {
    var opts := map["age_limit" := Int(0), "nocheckcertificate" := Bool(true)];
    match format
    case Audio =>
      opts["format" := BestAudio]["postprocessors" := List([ExtractMp3, EmbedMetadata])]
    case Video =>
      if hasFfmpeg then opts["format" := BestVideoAndAudio]["merge_output_format" := Mp4]
      else opts["format" := BestSingle]
  }

  /** `music.youtube.com` adds nothing to the domain list, since it contains
      `youtube.com`; `youtu.be` and `youtube.com` URLs are handled. */
  lemma MusicDomainRedundant(url: string)
    ensures CanHandle(SupportedDomains[..3], url) == CanHandle(SupportedDomains, url)
    ensures Contains(Lower(url), "youtube.com") || Contains(Lower(url), "youtu.be") ==> CanHandle(SupportedDomains, url)
  {
    assert OccursAt("music.youtube.com", "youtube.com", 6);
    RedundantDomain(SupportedDomains, 0, 3, url);
    assert SupportedDomains[..3] + SupportedDomains[4..] == SupportedDomains[..3];
    assert SupportedDomains[0] == "youtube.com" && SupportedDomains[1] == "youtu.be";
  }
}
