/** The download manager (downloaders/manager.py): the fixed registry of
    the four downloaders, the first-match search over it, and the object
    that keeps one downloader per platform and hands each download to the
    downloader of the URL's platform. */
module Manager {
  import opened Wrappers
  import opened Text
  import opened Base
  import opened Downloaders
  import TW = TwitterDownloader

  /** `DOWNLOADERS`, in the order the search tries them. */
  const Registry: seq<Platform> := [YouTube, Twitter, Instagram, Audiomack]

  /** What `detect_platform` answers when no downloader claims the URL. */
  const Unknown := "Desconocida"

  const UnsupportedPrefix := "URL no soportada. Plataformas disponibles: "

  /** The first platform of `ps` whose `can_handle(url)` holds. */
  function FirstMatch(ps: seq<Platform>, url: string): Option<Platform> {
    if ps == [] then None
    else if ps[0].Handles(url) then Some(ps[0])
    else FirstMatch(ps[1..], url)
  }

  /** The search finds nothing exactly when no entry claims the URL, and
      what it finds is an entry that claims it with no earlier entry that
      does. */
  lemma {:induction false} FirstMatchSpec(ps: seq<Platform>, url: string)
    ensures var r := FirstMatch(ps, url);
      && (r.None? <==> forall k :: 0 <= k < |ps| ==> !ps[k].Handles(url))
      && (r.Some? ==> exists k :: 0 <= k < |ps| && ps[k] == r.value && r.value.Handles(url)
                                && forall j :: 0 <= j < k ==> !ps[j].Handles(url))
  {
    if ps != [] && !ps[0].Handles(url) {
      FirstMatchSpec(ps[1..], url);
      assert forall k :: 1 <= k < |ps| ==> ps[1..][k - 1] == ps[k];
      var r := FirstMatch(ps, url);
      if r.Some? {
        var k :| 0 <= k < |ps[1..]| && ps[1..][k] == r.value && r.value.Handles(url)
                 && forall j :: 0 <= j < k ==> !ps[1..][j].Handles(url);
        assert ps[k + 1] == r.value;
      }
    }
  }

  /** The platform the manager picks for `url`, if any. */
  function Detect(url: string): Option<Platform> {
    FirstMatch(Registry, url)
  }

  /** `detect_platform(url)` */
  function DetectPlatform(url: string): string {
    match Detect(url)
    case Some(p) => p.Name()
    case None => Unknown
  }

  /** `get_supported_platforms()` */
  function SupportedPlatforms(): (r: seq<string>)
    ensures |r| == |Registry| && forall k :: 0 <= k < |r| ==> r[k] == Registry[k].Name()
  {
    seq(|Registry|, k requires 0 <= k < |Registry| => Registry[k].Name())
  }

  /** The message of the `ValueError` `_get_downloader` raises. */
  function UnsupportedMessage(): string {
    UnsupportedPrefix + Join(SupportedPlatforms(), ", ")
  }

  /** The registry order, spelled out: the supported platforms are these
      four names, in this order. */
  lemma SupportedPlatformsInOrder()
    ensures SupportedPlatforms() == ["YouTube", "X (Twitter)", "Instagram", "Audiomack"]
  {
  }

  /** The error message lists all four names in registry order. */
  lemma UnsupportedMessageListsAll()
    ensures UnsupportedMessage()
         == UnsupportedPrefix + "YouTube" + ", " + "X (Twitter)" + ", " + "Instagram" + ", " + "Audiomack"
  {
    SupportedPlatformsInOrder();
    JoinFour(UnsupportedPrefix, "YouTube", "X (Twitter)", "Instagram", "Audiomack", ", ");
  }

  /** Four parts joined, after a prefix. */
  lemma JoinFour(prefix: string, a: string, b: string, c: string, d: string, sep: string)
    ensures prefix + Join([a, b, c, d], sep) == prefix + a + sep + b + sep + c + sep + d
  {
    assert [a, b, c, d][1..] == [b, c, d];
    assert [b, c, d][1..] == [c, d];
    assert [c, d][1..] == [d];
    assert Join([d], sep) == d;
    var last := Join([c, d], sep);
    assert last == c + sep + d;
    var rest := Join([b, c, d], sep);
    assert rest == b + sep + last;
    assert Join([a, b, c, d], sep) == a + sep + rest;
    assert prefix + (a + sep + (b + sep + (c + sep + d))) == prefix + a + sep + b + sep + c + sep + d;
  }

  /** Every platform is in the registry. */
  lemma RegistryHasAll(p: Platform)
    ensures exists k :: 0 <= k < |Registry| && Registry[k] == p
  {
    match p
    case YouTube => assert Registry[0] == p;
    case Twitter => assert Registry[1] == p;
    case Instagram => assert Registry[2] == p;
    case Audiomack => assert Registry[3] == p;
  }

  /** No platform is called `Desconocida`. */
  lemma UnknownIsNoName(p: Platform)
    ensures p.Name() != Unknown
  {
    assert Unknown[0] == 'D';
  }

  /** `detect_platform` names the registry entry at `k` exactly when that
      entry claims the URL and no earlier one does. */
  lemma DetectFirstMatch(url: string, k: nat)
    requires k < |Registry|
    ensures DetectPlatform(url) == Registry[k].Name()
        <==> Registry[k].Handles(url) && forall j :: 0 <= j < k ==> !Registry[j].Handles(url)
  {
    UnknownIsNoName(Registry[k]);
    if Detect(url).Some? {
      NamesDistinct(Detect(url).value, Registry[k]);
    }
    FirstMatchAt(Registry, url, k);
  }

  /** In a list without repeats, the first match is the entry at `k`
      exactly when that entry claims the URL and no earlier one does. */
  lemma {:induction false} FirstMatchAt(ps: seq<Platform>, url: string, k: nat)
    requires k < |ps|
    requires forall a, b :: 0 <= a < b < |ps| ==> ps[a] != ps[b]
    ensures FirstMatch(ps, url) == Some(ps[k])
        <==> ps[k].Handles(url) && forall j :: 0 <= j < k ==> !ps[j].Handles(url)
  {
    if k > 0 && !ps[0].Handles(url) {
      var rest := ps[1..];
      assert forall j :: 1 <= j < |ps| ==> rest[j - 1] == ps[j];
      assert forall a, b :: 0 <= a < b < |rest| ==> rest[a] != rest[b] by {
        forall a, b | 0 <= a < b < |rest| ensures rest[a] != rest[b] {
          assert rest[a] == ps[a + 1] && rest[b] == ps[b + 1];
        }
      }
      FirstMatchAt(rest, url, k - 1);
    } else if k > 0 {
      assert FirstMatch(ps, url) == Some(ps[0]) && ps[0] != ps[k];
      assert !(forall j :: 0 <= j < k ==> !ps[j].Handles(url)) by {
        assert ps[0].Handles(url);
      }
    } else if !ps[0].Handles(url) {
      FirstMatchSpec(ps[1..], url);
      if FirstMatch(ps[1..], url).Some? {
        var i :| 0 <= i < |ps[1..]| && ps[1..][i] == FirstMatch(ps[1..], url).value;
        assert ps[i + 1] != ps[0];
      }
    }
  }

  /** `detect_platform` answers `Desconocida` exactly when no platform
      claims the URL. */
  lemma DetectUnknown(url: string)
    ensures DetectPlatform(url) == Unknown <==> forall p: Platform :: !p.Handles(url)
  {
    FirstMatchSpec(Registry, url);
    match Detect(url)
    case Some(p) =>
      UnknownIsNoName(p);
    case None =>
      forall p: Platform ensures !p.Handles(url) {
        RegistryHasAll(p);
      }
  }

  /** A URL and its lower-cased form are detected as the same platform. */
  lemma DetectIgnoresCase(url: string)
    ensures Detect(Lower(url)) == Detect(url)
  {
    forall p: Platform ensures p.Handles(Lower(url)) == p.Handles(url) {
      CanHandleIgnoresCase(p.Domains(), url);
    }
    FirstMatchAgrees(Registry, Lower(url), url);
  }

  /** Two URLs every platform treats alike get the same first match. */
  lemma {:induction false} FirstMatchAgrees(ps: seq<Platform>, u: string, v: string)
    requires forall p: Platform :: p.Handles(u) == p.Handles(v)
    ensures FirstMatch(ps, u) == FirstMatch(ps, v)
  {
    if ps != [] {
      FirstMatchAgrees(ps[1..], u, v);
    }
  }

  /** YouTube comes first: a URL YouTube claims goes to YouTube, whatever
      else it contains. */
  lemma YouTubeWins(url: string)
    requires YouTube.Handles(url)
    ensures Detect(url) == Some(YouTube)
  {
  }

  /** Any URL with `x.com` in it goes to X (Twitter) unless YouTube claims
      it first: `netflix.com` is X's. */
  lemma XComGoesToTwitter(before: string, after: string)
    requires !YouTube.Handles(before + "x.com" + after)
    ensures Detect(before + "x.com" + after) == Some(Twitter)
  {
    TW.ClaimsAnyUrlContainingXCom(before, after);
    var u := before + "x.com" + after;
    assert Twitter.Handles(u);
    assert Registry[1..][0] == Twitter;
    assert Detect(u) == FirstMatch(Registry[1..], u);
  }

  /** `DownloadManager` */
  class DownloadManager {
    /** `progress_callback`, handed to every downloader it creates. */
    const sink: ProgressSink?
    /** `_downloaders`, by `PLATFORM_NAME`. */
    var downloaders: map<string, Downloader>

    /** Every cached downloader sits under its own platform's name and
        reports to the manager's callback. */
    predicate Valid()
      reads this
    {
      forall key :: key in downloaders ==> downloaders[key].platform.Name() == key && downloaders[key].sink == sink
    }

    constructor (sink: ProgressSink?)
      ensures this.sink == sink && downloaders == map[] && Valid()
    {
      this.sink := sink;
      downloaders := map[];
    }

    /** `_get_downloader(url)`: the first platform that claims the URL, its
        cached downloader or a new one put in the cache; the `ValueError`
        listing the platforms when none claims it, with the cache as it
        was. */
    method GetDownloader(url: string) returns (r: Result<Downloader>)
      requires Valid()
      modifies this
      ensures Valid()
      ensures r.Failure? <==> Detect(url).None?
      ensures r.Failure? ==> r.error == UnsupportedMessage() && downloaders == old(downloaders)
      ensures r.Success? ==>
        var p := Detect(url).value;
        && r.value.platform == p && r.value.sink == sink && r.value.platform.Name() == DetectPlatform(url)
        && p.Name() in downloaders && downloaders[p.Name()] == r.value
        && (p.Name() in old(downloaders) ==> downloaders == old(downloaders))
        && (p.Name() !in old(downloaders) ==>
              downloaders == old(downloaders)[p.Name() := r.value] && fresh(r.value) && r.value.ffmpegPath == None)
    {
      var i := 0;
      while i < |Registry|
        invariant 0 <= i <= |Registry|
        invariant Detect(url) == FirstMatch(Registry[i..], url)
        invariant downloaders == old(downloaders)
      {
        assert Registry[i..][1..] == Registry[i + 1..];
        var p := Registry[i];
        if p.Handles(url) {
          var key := p.Name();
          if key !in downloaders {
            var d := new Downloader(p, sink);
            downloaders := downloaders[key := d];
          } else {
            NamesDistinct(downloaders[key].platform, p);
          }
          return Success(downloaders[key]);
        }
        i := i + 1;
      }
      return Failure(UnsupportedMessage());
    }

    /** `download(config)`: the download of the downloader
        `_get_downloader` picks, its result handed back unchanged; that
        downloader starts from its own cached ffmpeg path, or from none when
        it is new. Every other cached downloader stays in the cache with its
        ffmpeg path. */
    method Download(config: Config, w: World) returns (result: Result<Info>)
      requires Valid()
      modifies this, sink, downloaders.Values
      ensures Valid()
      ensures Detect(config.url).None? ==>
        && result == Failure(UnsupportedMessage()) && downloaders == old(downloaders)
        && (sink != null ==> sink.events == old(sink.events))
      ensures Detect(config.url).Some? ==>
        var p := Detect(config.url).value;
        && downloaders.Keys == old(downloaders).Keys + {p.Name()}
        && DownloadedAs(p, config, if p.Name() in old(downloaders) then old(downloaders[p.Name()].ffmpegPath) else None, w,
                     result, downloaders[p.Name()].ffmpegPath, sink,
                     if sink != null then old(sink.events) else [], if sink != null then sink.events else [])
      ensures forall key :: key in old(downloaders) ==> key in downloaders && downloaders[key] == old(downloaders[key])
      ensures forall key :: key in old(downloaders) && (Detect(config.url).None? || key != Detect(config.url).value.Name()) ==>
        downloaders[key].ffmpegPath == old(downloaders[key].ffmpegPath)
    {
      var found := GetDownloader(config.url);
      if found.Failure? {
        return Failure(found.error);
      }
      var downloader := found.value;
      ghost var p := Detect(config.url).value;
      ghost var cache := downloader.ffmpegPath;
      assert cache == if p.Name() in old(downloaders) then old(downloaders[p.Name()].ffmpegPath) else None;
      result := downloader.Download(config, w);
      assert downloader == downloaders[p.Name()];
    }

    /** `get_supported_platforms()` */
    static method GetSupportedPlatforms() returns (names: seq<string>)
      ensures names == ["YouTube", "X (Twitter)", "Instagram", "Audiomack"]
    {
      names := [];
      for i := 0 to |Registry|
        invariant names == SupportedPlatforms()[..i]
      {
        names := names + [Registry[i].Name()];
      }
      SupportedPlatformsInOrder();
    }

    /** `detect_platform(url)` */
    method DetectPlatformOf(url: string) returns (name: string)
      ensures name == DetectPlatform(url)
    {
      for i := 0 to |Registry|
        invariant Detect(url) == FirstMatch(Registry[i..], url)
      {
        assert Registry[i..][1..] == Registry[i + 1..];
        if Registry[i].Handles(url) {
          return Registry[i].Name();
        }
      }
      return Unknown;
    }
  }
}
