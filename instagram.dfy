/** downloaders/instagram.py: the Instagram domains and option builder. */
module InstagramDownloader {
  import opened Text
  import opened Base

  const PlatformName := "Instagram"
  const SupportedDomains: seq<string> := ["instagram.com", "www.instagram.com", "instagr.am"]

  /** `{"instagram": {"skip": ["dash"]}}` */
  const SkipDash: Value := Dict(map["instagram" := Dict(map["skip" := List([Str("dash")])])])

  /** `_get_platform_options`: the extractor arguments are always present;
      audio extracts mp3 and does nothing else. */
  function PlatformOptions(format: OutputFormat, hasFfmpeg: bool): (r: Options)
    ensures FollowsFormatPolicy(r, format, hasFfmpeg)
    ensures "extractor_args" in r && r["extractor_args"] == SkipDash
    ensures format == Audio ==> r["postprocessors"] == List([ExtractMp3])
    ensures r.Keys <= {"extractor_args", "format", "postprocessors", "merge_output_format"}
  {
    var opts := map["extractor_args" := SkipDash];
    match format
    case Audio =>
      opts["format" := BestAudio]["postprocessors" := List([ExtractMp3])]
    case Video =>
      if hasFfmpeg then opts["format" := BestVideoAndAudio]["merge_output_format" := Mp4]
      else opts["format" := BestSingle]
  }

  /** `www.instagram.com` adds nothing, since it contains `instagram.com`. */
  lemma WwwDomainRedundant(url: string)
    ensures CanHandle(SupportedDomains, url) == CanHandle(["instagram.com", "instagr.am"], url)
  {
    assert OccursAt("www.instagram.com", "instagram.com", 4);
    RedundantDomain(SupportedDomains, 0, 1, url);
    assert SupportedDomains[..1] + SupportedDomains[2..] == ["instagram.com", "instagr.am"];
  }
}
