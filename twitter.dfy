/** downloaders/twitter.py: the X (Twitter) domains and option builder. */
module TwitterDownloader {
  import opened Text
  import opened Base

  const PlatformName := "X (Twitter)"
  const SupportedDomains: seq<string> := ["twitter.com", "x.com", "mobile.twitter.com", "mobile.x.com"]

  /** `_get_platform_options`: starts from an empty mapping, so only the
      format keys appear; audio extracts mp3 and does nothing else. */
  function PlatformOptions(format: OutputFormat, hasFfmpeg: bool): (r: Options)
    ensures FollowsFormatPolicy(r, format, hasFfmpeg)
    ensures format == Audio ==> r["postprocessors"] == List([ExtractMp3])
    ensures r.Keys <= {"format", "postprocessors", "merge_output_format"}
  {
    var opts: Options := map[];
    match format
    case Audio =>
      opts["format" := BestAudio]["postprocessors" := List([ExtractMp3])]
    case Video =>
      if hasFfmpeg then opts["format" := BestVideoAndAudio]["merge_output_format" := Mp4]
      else opts["format" := BestSingle]
  }

  /** The two `mobile.` domains add nothing: the list answers exactly as
      `twitter.com` and `x.com` alone do. */
  lemma {:induction false} MobileDomainsRedundant(url: string)
    ensures CanHandle(SupportedDomains, url) == CanHandle(["twitter.com", "x.com"], url)
  {
    assert OccursAt("mobile.x.com", "x.com", 7);
    RedundantDomain(SupportedDomains, 1, 3, url);
    var three := SupportedDomains[..3] + SupportedDomains[4..];
    assert three == ["twitter.com", "x.com", "mobile.twitter.com"];
    assert OccursAt("mobile.twitter.com", "twitter.com", 7);
    RedundantDomain(three, 0, 2, url);
    assert three[..2] + three[3..] == ["twitter.com", "x.com"];
  }

  /** The bare substring test claims every URL with `x.com` in it, whatever
      comes before (`https://netflix.com`, `https://www.dropbox.com`) or
      after. */
  lemma ClaimsAnyUrlContainingXCom(before: string, after: string)
    ensures CanHandle(SupportedDomains, before + "x.com" + after)
  {
    var u := before + "x.com" + after;
    var n := |before|;
    forall k | 0 <= k < 5 ensures Lower(u)[n + k] == "x.com"[k] {
      assert u[n + k] == "x.com"[k];
    }
    assert OccursAt(Lower(u), "x.com", n);
    assert Contains(Lower(u), SupportedDomains[1]);
  }
}
