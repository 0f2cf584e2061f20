/** downloaders/audiomack.py, the parts that are string and sequence logic:
    metadata from the page URL and from the page heading, the scan of the
    browser's network log for the streaming URL, the filename sanitiser
    and caps, the extension, filename and mp3 path, and the percent the
    HTTP transfer reports. The browser session, the HTTP stream and the
    ffmpeg process are inputs (see the Downloaders module). */
module AudiomackDownloader {
  import opened Wrappers
  import opened Text
  import opened Base

  const PlatformName := "Audiomack"
  const SupportedDomains: seq<string> := ["audiomack.com", "www.audiomack.com"]

  /** `www.audiomack.com` adds nothing, since it contains `audiomack.com`. */
  lemma WwwDomainRedundant(url: string)
    ensures CanHandle(SupportedDomains, url) == CanHandle(["audiomack.com"], url)
  {
    assert OccursAt("www.audiomack.com", "audiomack.com", 4);
    RedundantDomain(SupportedDomains, 0, 1, url);
    assert SupportedDomains[..1] + SupportedDomains[2..] == ["audiomack.com"];
  }

  // ---------------------------------------------------------------------
  // Metadata

  datatype Metadata = Metadata(title: string, artist: string, id: string)

  const DefaultMetadata := Metadata("Unknown", "Unknown", "unknown")

  /** Where the run of characters outside `stops` that starts at index `j`
      ends: the greedy extent of a `[^...]+` group. */
  function RunEnd(s: string, j: nat, stops: set<char>): (e: nat)
    requires j <= |s|
    decreases |s| - j
    ensures j <= e <= |s|
    ensures forall k :: j <= k < e ==> s[k] !in stops
    ensures e == |s| || s[e] in stops
  {
    if j == |s| || s[j] in stops then j else RunEnd(s, j + 1, stops)
  }

  /** A run of allowed characters from `j` to `n` lies inside the greedy
      run; it is the whole run when a stop character or the end of `s`
      follows it. */
  lemma {:induction false} RunEndCovers(s: string, j: nat, n: nat, stops: set<char>)
    requires j <= n <= |s|
    requires forall k :: j <= k < n ==> s[k] !in stops
    decreases n - j
    ensures n <= RunEnd(s, j, stops)
    ensures n == |s| || s[n] in stops ==> RunEnd(s, j, stops) == n
  {
    if j < n {
      RunEndCovers(s, j + 1, n, stops);
    }
  }

  const Anchor := "audiomack.com/"
  const SongSeparator := "/song/"
  const ArtistStops: set<char> := {'/'}
  const SlugStops: set<char> := {'/', '?'}

  /** A match of `audiomack\.com/([^/]+)/song/([^/?]+)` at index `i` with
      these two groups: both are non-empty runs of allowed characters, the
      anchor, the artist, the separator and the slug occur one after the
      other from `i`, and the slug group is greedy, so the end of the URL
      or a `/` or `?` follows it. The four pieces side by side are one
      occurrence of the whole pattern text (`PatternOccurs`). */
  predicate SongMatch(url: string, i: nat, artist: string, slug: string) {
    && artist != [] && slug != []
    && (forall k :: 0 <= k < |artist| ==> artist[k] != '/')
    && (forall k :: 0 <= k < |slug| ==> slug[k] != '/' && slug[k] != '?')
    && OccursAt(url, Anchor, i)
    && OccursAt(url, artist, i + |Anchor|)
    && OccursAt(url, SongSeparator, i + |Anchor| + |artist|)
    && OccursAt(url, slug, i + |Anchor| + |artist| + |SongSeparator|)
    && var e := i + |Anchor| + |artist| + |SongSeparator| + |slug|;
       e == |url| || url[e] == '/' || url[e] == '?'
  }

  /** The pattern tried at index `i`: both groups are greedy runs, so each
      is the whole run of allowed characters, and each must be non-empty. */
  function SongPathAt(url: string, i: nat): (r: Option<(string, string)>)
    ensures r.Some? ==> SongMatch(url, i, r.value.0, r.value.1)
  {
    if !OccursAt(url, Anchor, i) then None
    else
      var j := i + |Anchor|;
      var k := RunEnd(url, j, ArtistStops);
      if k == j || !OccursAt(url, SongSeparator, k) then None
      else
        var l := k + |SongSeparator|;
        var e := RunEnd(url, l, SlugStops);
        if e == l then None
        else
          GroupsMatch(url, i, k, e);
          Some((url[j..k], url[l..e]))
  }

  /** The two non-empty greedy runs `SongPathAt` takes, with the separator
      between them, make a match. */
  lemma GroupsMatch(url: string, i: nat, k: nat, e: nat)
    requires OccursAt(url, Anchor, i)
    requires k == RunEnd(url, i + |Anchor|, ArtistStops) && k != i + |Anchor|
    requires OccursAt(url, SongSeparator, k)
    requires e == RunEnd(url, k + |SongSeparator|, SlugStops) && e != k + |SongSeparator|
    ensures SongMatch(url, i, url[i + |Anchor|..k], url[k + |SongSeparator|..e])
  {
    var j := i + |Anchor|;
    var l := k + |SongSeparator|;
    assert OccursAt(url, url[j..k], j);
    assert OccursAt(url, url[l..e], l);
  }

  /** Whenever the pattern text with an allowed artist and slug occurs at
      `i`, the pattern matches there: the artist group is exactly that
      artist, and the greedy slug group extends that slug. */
  lemma {:induction false} SongPathAtComplete(url: string, i: nat, artist: string, slug: string)
    requires artist != [] && slug != []
    requires forall k :: 0 <= k < |artist| ==> artist[k] != '/'
    requires forall k :: 0 <= k < |slug| ==> slug[k] != '/' && slug[k] != '?'
    requires OccursAt(url, Anchor + artist + SongSeparator + slug, i)
    ensures SongPathAt(url, i).Some?
    ensures SongPathAt(url, i).value.0 == artist
    ensures |slug| <= |SongPathAt(url, i).value.1| && SongPathAt(url, i).value.1[..|slug|] == slug
  {
    OccursSplit(url, Anchor + artist + SongSeparator, slug, i);
    OccursSplit(url, Anchor + artist, SongSeparator, i);
    OccursSplit(url, Anchor, artist, i);
    GroupsFound(url, i, artist, slug);
  }

  /** `SongPathAtComplete` with the pattern text given piece by piece. */
  lemma GroupsFound(url: string, i: nat, artist: string, slug: string)
    requires artist != [] && slug != []
    requires forall k :: 0 <= k < |artist| ==> artist[k] != '/'
    requires forall k :: 0 <= k < |slug| ==> slug[k] != '/' && slug[k] != '?'
    requires OccursAt(url, Anchor, i)
    requires OccursAt(url, artist, i + |Anchor|)
    requires OccursAt(url, SongSeparator, i + |Anchor| + |artist|)
    requires OccursAt(url, slug, i + |Anchor| + |artist| + |SongSeparator|)
    ensures SongPathAt(url, i).Some?
    ensures SongPathAt(url, i).value.0 == artist
    ensures |slug| <= |SongPathAt(url, i).value.1| && SongPathAt(url, i).value.1[..|slug|] == slug
  {
    var j := i + |Anchor|;
    var k := j + |artist|;
    var l := k + |SongSeparator|;
    assert url[k] == SongSeparator[0];
    RunOver(url, j, artist, ArtistStops);
    RunOver(url, l, slug, SlugStops);
    var e := RunEnd(url, l, SlugStops);
    assert SongPathAt(url, i) == Some((url[j..k], url[l..e]));
  }

  /** A run of allowed characters occurring at `j` starts the greedy run
      from `j`, and is all of it when a stop character or the end of `s`
      follows. */
  lemma RunOver(s: string, j: nat, t: string, stops: set<char>)
    requires OccursAt(s, t, j)
    requires forall k :: 0 <= k < |t| ==> t[k] !in stops
    ensures j + |t| <= RunEnd(s, j, stops)
    ensures s[j..RunEnd(s, j, stops)][..|t|] == t
    ensures j + |t| == |s| || s[j + |t|] in stops ==> RunEnd(s, j, stops) == j + |t| && s[j..j + |t|] == t
  {
    forall n | j <= n < j + |t| ensures s[n] !in stops {
      assert s[n] == s[j..j + |t|][n - j];
    }
    RunEndCovers(s, j, j + |t|, stops);
    assert s[j..RunEnd(s, j, stops)][..|t|] == s[j..j + |t|];
  }

  /** In a match, the anchor, the artist, the separator and the slug side
      by side make one occurrence of the whole pattern text. */
  lemma PatternOccurs(url: string, i: nat, artist: string, slug: string)
    requires SongMatch(url, i, artist, slug)
    ensures OccursAt(url, Anchor + artist + SongSeparator + slug, i)
  {
    OccursConcat(url, Anchor, artist, i);
    OccursConcat(url, Anchor + artist, SongSeparator, i);
    OccursConcat(url, Anchor + artist + SongSeparator, slug, i);
  }

  /** `re.search` from index `i`: the match at the lowest index wins. */
  function SongPathFrom(url: string, i: nat): (r: Option<(string, string)>)
    requires i <= |url|
    decreases |url| - i
    ensures r.Some? <==> exists k :: i <= k <= |url| && SongPathAt(url, k).Some?
    ensures r.Some? ==> exists k :: i <= k <= |url| && SongPathAt(url, k) == r
                                   && forall j :: i <= j < k ==> SongPathAt(url, j).None?
  {
    var here := SongPathAt(url, i);
    if here.Some? then here
    else if i == |url| then None
    else
      var r := SongPathFrom(url, i + 1);
      assert r.Some? ==> exists k :: i + 1 <= k <= |url| && SongPathAt(url, k) == r
                                   && forall j :: i + 1 <= j < k ==> SongPathAt(url, j).None?;
      r
  }

  function SongPath(url: string): Option<(string, string)> {
    SongPathFrom(url, 0)
  }

  /** `part.replace('-', ' ').title()` */
  function Prettify(part: string): (r: string) {
    Title(ReplaceChar(part, '-', ' '))
  }

  /** Prettified parts keep their length and lose every hyphen. */
  lemma {:induction false} PrettifyShape(part: string)
    ensures |Prettify(part)| == |part|
    ensures '-' !in Prettify(part)
  {
    var spaced := ReplaceChar(part, '-', ' ');
    TitleKeepsShape(spaced, false);
    forall k | 0 <= k < |part| ensures Prettify(part)[k] != '-' {
      if !IsCased(spaced[k]) {
        assert Prettify(part)[k] == spaced[k];
      } else {
        assert IsCased(Prettify(part)[k]);
      }
    }
  }

  /** The metadata the page URL gives: the defaults, or on a
      `/<artist>/song/<slug>` match the prettified artist and slug with the
      slug itself as id. */
  function UrlMetadata(url: string): (m: Metadata) {
    match SongPath(url)
    case None => DefaultMetadata
    case Some((artist, slug)) => Metadata(Prettify(slug), Prettify(artist), slug)
  }

  /** A line as the heading filter keeps it: stripped and not empty. */
  predicate IsStrippedLine(l: string) {
    l != [] && !IsSpace(l[0]) && !IsSpace(l[|l| - 1])
  }

  /** `[l.strip() for l in pieces if l.strip()]` */
  function NonBlankLines(pieces: seq<string>): (r: seq<string>)
    ensures |r| <= |pieces|
  {
    if pieces == [] then []
    else
      var line := Strip(pieces[0]);
      var rest := NonBlankLines(pieces[1..]);
      if line == [] then rest else [line] + rest
  }

  /** A non-empty stripped piece is a stripped line. */
  lemma StrippedLine(piece: string)
    requires Strip(piece) != []
    ensures IsStrippedLine(Strip(piece))
  {
  }

  /** A stripped line in front of stripped lines leaves them all stripped. */
  lemma ConsStripped(line: string, rest: seq<string>)
    requires IsStrippedLine(line)
    requires forall k :: 0 <= k < |rest| ==> IsStrippedLine(rest[k])
    ensures forall k :: 0 <= k < |[line] + rest| ==> IsStrippedLine(([line] + rest)[k])
  {
    forall k | 0 <= k < |[line] + rest| ensures IsStrippedLine(([line] + rest)[k]) {
      if k > 0 {
        assert ([line] + rest)[k] == rest[k - 1];
      }
    }
  }

  /** Every kept line is stripped. */
  lemma {:induction false} NonBlankLinesStripped(pieces: seq<string>)
    ensures forall k :: 0 <= k < |NonBlankLines(pieces)| ==> IsStrippedLine(NonBlankLines(pieces)[k])
  {
    if pieces != [] {
      var rest := NonBlankLines(pieces[1..]);
      NonBlankLinesStripped(pieces[1..]);
      var line := Strip(pieces[0]);
      if line != [] {
        var r := NonBlankLines(pieces);
        assert r == [line] + rest;
        StrippedLine(pieces[0]);
        ConsStripped(line, rest);
      }
    }
  }

  /** The non-blank, stripped lines of the heading's text. */
  function HeadingLines(text: string): seq<string> {
    NonBlankLines(Split(Strip(text), '\n'))
  }

  /** The refinement from the page's `h1` (`None` when there is none): two
      or more lines give artist then title, one line gives the title only,
      none changes nothing; the id never changes. */
  function RefineFromHeading(m: Metadata, h1: Option<string>): (r: Metadata)
    ensures r.id == m.id
    ensures h1.None? ==> r == m
    ensures h1.Some? ==>
      var lines := HeadingLines(h1.value);
      && (|lines| >= 2 ==> r.artist == lines[0] && r.title == lines[1])
      && (|lines| == 1 ==> r.artist == m.artist && r.title == lines[0])
      && (|lines| == 0 ==> r == m)
  {
    match h1
    case None => m
    case Some(text) =>
      var lines := HeadingLines(text);
      if |lines| >= 2 then m.(artist := lines[0], title := lines[1])
      else if |lines| == 1 then m.(title := lines[0])
      else m
  }

  /** The metadata `_extract_streaming_url` returns. */
  function PageMetadata(url: string, h1: Option<string>): Metadata {
    RefineFromHeading(UrlMetadata(url), h1)
  }

  /** No field of the extracted metadata is ever empty, and a title or
      artist taken from the URL holds no hyphen. */
  lemma {:induction false} PageMetadataNonEmpty(url: string, h1: Option<string>)
    ensures var m := PageMetadata(url, h1); m.title != [] && m.artist != [] && m.id != []
    ensures var m := PageMetadata(url, h1); var u := UrlMetadata(url);
      && (m.title == u.title ==> '-' !in m.title)
      && (m.artist == u.artist ==> '-' !in m.artist)
  {
    var u := UrlMetadata(url);
    assert u.title != [] && u.artist != [] && u.id != [] && '-' !in u.title && '-' !in u.artist by {
      match SongPath(url)
      case None =>
      case Some((artist, slug)) =>
        PrettifyShape(artist);
        PrettifyShape(slug);
    }
    var m := PageMetadata(url, h1);
    if h1.Some? {
      var lines := HeadingLines(h1.value);
      NonBlankLinesStripped(Split(Strip(h1.value), '\n'));
      if |lines| >= 2 {
        assert m.artist == lines[0] && m.title == lines[1];
      } else if |lines| == 1 {
        assert m.artist == u.artist && m.title == lines[0];
      } else {
        assert m == u;
      }
    }
  }

  // ---------------------------------------------------------------------
  // The network log

  /** One performance-log entry, already parsed (`tag` is its `method`): `Malformed` is an entry whose
      JSON could not be read; `requestUrl` is `None` when the path
      `params.request.url` is missing. */
  datatype LogEntry = Malformed | Entry(tag: string, requestUrl: Option<string>)

  const RequestMethod := "Network.requestWillBeSent"
  const StreamingHost := "music.audiomack.com"

  predicate IsStreamingRequest(e: LogEntry) {
    e.Entry? && e.tag == RequestMethod && e.requestUrl.Some? && Contains(e.requestUrl.value, StreamingHost)
  }

  /** The URL of the first streaming request in the log. */
  function FirstStreamingUrl(logs: seq<LogEntry>): (r: Option<string>)
    ensures r.None? <==> forall k :: 0 <= k < |logs| ==> !IsStreamingRequest(logs[k])
    ensures r.Some? ==> exists k :: 0 <= k < |logs| && IsStreamingRequest(logs[k])
                                 && logs[k].requestUrl.value == r.value
                                 && forall j :: 0 <= j < k ==> !IsStreamingRequest(logs[j])
  {
    if logs == [] then None
    else if IsStreamingRequest(logs[0]) then Some(logs[0].requestUrl.value)
    else
      var r := FirstStreamingUrl(logs[1..]);
      assert forall k :: 1 <= k < |logs| ==> logs[1..][k - 1] == logs[k];
      r
  }

  /** The loop over the log with `break` at the first streaming request;
      every other entry, malformed or not, is skipped. */
  method ScanLog(logs: seq<LogEntry>) returns (streamingUrl: Option<string>)
    ensures streamingUrl == FirstStreamingUrl(logs)
  {
    streamingUrl := None;
    var i := 0;
    while i < |logs|
      invariant 0 <= i <= |logs|
      invariant forall j :: 0 <= j < i ==> !IsStreamingRequest(logs[j])
    {
      var entry := logs[i];
      if entry.Entry? && entry.tag == RequestMethod && entry.requestUrl.Some? {
        var reqUrl := entry.requestUrl.value;
        if Contains(reqUrl, StreamingHost) {
          streamingUrl := Some(reqUrl);
          break;
        }
      }
      i := i + 1;
    }
  }

  // ---------------------------------------------------------------------
  // The filename sanitiser

  /** The characters of `[<>:"/\\|?*]`. */
  predicate IsIllegal(c: char) {
    c in {'<', '>', ':', '"', '/', '\\', '|', '?', '*'}
  }

  predicate NoIllegal(t: string) {
    forall i :: 0 <= i < |t| ==> !IsIllegal(t[i])
  }

  /** The only whitespace is the plain space (so no line breaks). */
  predicate OnlyPlainSpaces(t: string) {
    forall i :: 0 <= i < |t| ==> IsSpace(t[i]) ==> t[i] == ' '
  }

  ghost predicate NoDoubleSpace(t: string) {
    forall i, j :: 0 <= i < j < |t| && j == i + 1 ==> !(IsSpace(t[i]) && IsSpace(t[j]))
  }

  predicate NoEdgeSpace(t: string) {
    t == [] || (!IsSpace(t[0]) && !IsSpace(t[|t| - 1]))
  }

  predicate AllSpace(t: string) {
    forall i :: 0 <= i < |t| ==> IsSpace(t[i])
  }

  /** What a sanitised name looks like. */
  ghost predicate IsClean(t: string) {
    NoIllegal(t) && OnlyPlainSpaces(t) && NoDoubleSpace(t) && NoEdgeSpace(t)
  }

  /** What the two `replace` calls and the first `re.sub` of `clean` do to
      one character: a line break becomes a space, a character of
      `[<>:"/\\|?*]` becomes `_`. (The three passes touch disjoint
      characters, so one pass does the same.) */
  function SanitiseChar(c: char): (d: char)
    ensures !IsIllegal(d) && IsSpace(d) == IsSpace(c)
    ensures IsSpace(c) ==> d == ' ' || d == c
  {
    if c == '\n' || c == '\r' then ' ' else if IsIllegal(c) then '_' else c
  }

  function Sanitise(s: string): (r: string)
    ensures |r| == |s|
  {
    if s == [] then [] else [SanitiseChar(s[0])] + Sanitise(s[1..])
  }

  lemma {:induction false} SanitiseAt(s: string)
    ensures forall i :: 0 <= i < |s| ==> Sanitise(s)[i] == SanitiseChar(s[i])
  {
    if s != [] {
      SanitiseAt(s[1..]);
      assert forall i :: 1 <= i < |s| ==> Sanitise(s)[i] == Sanitise(s[1..])[i - 1];
    }
  }

  /** `re.sub(r'\s+', ' ', text)`: every run of whitespace becomes one space
      (the last character of a run stands for the run). */
  function CollapseSpace(s: string): (r: string)
    ensures |r| <= |s|
  {
    if s == [] then []
    else if IsSpace(s[0]) && |s| > 1 && IsSpace(s[1]) then CollapseSpace(s[1..])
    else [if IsSpace(s[0]) then ' ' else s[0]] + CollapseSpace(s[1..])
  }

  /** After the collapse the only whitespace is single plain spaces; the
      collapse keeps whether each end is whitespace, adds no illegal
      character, and leaves all-whitespace text all whitespace. */
  lemma {:induction false} CollapseSpaceShape(s: string)
    ensures var r := CollapseSpace(s);
      && (r == []) == (s == [])
      && (s != [] ==> IsSpace(r[0]) == IsSpace(s[0]) && IsSpace(r[|r| - 1]) == IsSpace(s[|s| - 1]))
      && OnlyPlainSpaces(r) && NoDoubleSpace(r)
      && (NoIllegal(s) ==> NoIllegal(r))
      && (AllSpace(s) ==> AllSpace(r))
  {
    if s != [] {
      var rest := CollapseSpace(s[1..]);
      CollapseSpaceShape(s[1..]);
      assert forall i :: 0 <= i < |s| - 1 ==> s[1..][i] == s[i + 1];
      if !(IsSpace(s[0]) && |s| > 1 && IsSpace(s[1])) {
        var r := CollapseSpace(s);
        var c := if IsSpace(s[0]) then ' ' else s[0];
        assert r == [c] + rest;
        assert forall i :: 1 <= i < |r| ==> r[i] == rest[i - 1];
        forall i, j | 0 <= i < j < |r| && j == i + 1 ensures !(IsSpace(r[i]) && IsSpace(r[j])) {
          if i > 0 {
            assert r[i] == rest[i - 1] && r[j] == rest[j - 1];
          } else if IsSpace(c) {
            assert |s| > 1 && rest != [] && !IsSpace(s[1]);
          }
        }
      }
    }
  }

  /** `clean` */
  function Clean(text: string): string {
    Strip(CollapseSpace(Sanitise(text)))
  }

  /** A slice keeps every per-character and neighbour property. */
  lemma SliceKeepsShape(t: string, lo: nat, hi: nat)
    requires lo <= hi <= |t|
    ensures NoIllegal(t) ==> NoIllegal(t[lo..hi])
    ensures OnlyPlainSpaces(t) ==> OnlyPlainSpaces(t[lo..hi])
    ensures NoDoubleSpace(t) ==> NoDoubleSpace(t[lo..hi])
  {
    var u := t[lo..hi];
    assert forall i :: 0 <= i < |u| ==> u[i] == t[lo + i];
    if NoDoubleSpace(t) {
      forall i, j | 0 <= i < j < |u| && j == i + 1 ensures !(IsSpace(u[i]) && IsSpace(u[j])) {
        assert u[i] == t[lo + i] && u[j] == t[lo + j];
      }
    }
  }

  /** The sanitised text has no illegal character and keeps which
      characters are whitespace. */
  lemma SanitiseShape(text: string)
    ensures NoIllegal(Sanitise(text))
    ensures forall i :: 0 <= i < |text| ==> IsSpace(Sanitise(text)[i]) == IsSpace(text[i])
  {
    SanitiseAt(text);
  }

  lemma CleanIsClean(text: string)
    ensures IsClean(Clean(text))
  {
    var safe := Sanitise(text);
    SanitiseShape(text);
    var collapsed := CollapseSpace(safe);
    CollapseSpaceShape(safe);
    var lo, hi := StripBounds(collapsed);
    SliceKeepsShape(collapsed, lo, hi);
  }

  /** Nothing sanitised holds a line break. */
  lemma CleanHasNoLineBreak(text: string)
    ensures '\n' !in Clean(text) && '\r' !in Clean(text)
  {
    CleanIsClean(text);
  }

  /** CollapseSpace leaves alone a string that has nothing to collapse. */
  lemma {:induction false} CollapseSpaceFixed(t: string)
    requires OnlyPlainSpaces(t) && NoDoubleSpace(t)
    ensures CollapseSpace(t) == t
  {
    if t != [] {
      var u := t[1..];
      assert forall i :: 0 <= i < |u| ==> u[i] == t[i + 1];
      assert OnlyPlainSpaces(u);
      assert NoDoubleSpace(u) by {
        forall i, j | 0 <= i < j < |u| && j == i + 1 ensures !(IsSpace(u[i]) && IsSpace(u[j])) {
          assert u[i] == t[i + 1] && u[j] == t[j + 1];
        }
      }
      CollapseSpaceFixed(u);
      if |t| > 1 {
        assert !(IsSpace(t[0]) && IsSpace(t[1]));
      }
      assert CollapseSpace(t) == [t[0]] + u;
    }
  }

  /** Sanitising leaves alone text with no line break and no illegal
      character. */
  lemma SanitiseFixed(t: string)
    requires NoIllegal(t) && OnlyPlainSpaces(t)
    ensures Sanitise(t) == t
  {
    SanitiseAt(t);
  }

  /** A clean name is its own sanitised form. */
  lemma CleanFixesClean(t: string)
    requires IsClean(t)
    ensures Clean(t) == t
  {
    SanitiseFixed(t);
    CollapseSpaceFixed(t);
    StripNoEdgeSpace(t);
  }

  /** `clean` is idempotent. */
  lemma CleanIdempotent(text: string)
    ensures Clean(Clean(text)) == Clean(text)
  {
    CleanIsClean(text);
    CleanFixesClean(Clean(text));
  }

  /** A non-whitespace character survives the collapse. */
  lemma {:induction false} CollapseKeepsNonSpace(s: string, i: nat)
    requires i < |s| && !IsSpace(s[i])
    ensures !AllSpace(CollapseSpace(s))
  {
    if i == 0 {
      assert CollapseSpace(s) == [s[0]] + CollapseSpace(s[1..]);
      assert !IsSpace(CollapseSpace(s)[0]);
    } else {
      CollapseKeepsNonSpace(s[1..], i - 1);
      var r := CollapseSpace(s[1..]);
      var k :| 0 <= k < |r| && !IsSpace(r[k]);
      if !(IsSpace(s[0]) && |s| > 1 && IsSpace(s[1])) {
        assert CollapseSpace(s)[k + 1] == r[k];
      }
    }
  }

  /** `clean` gives the empty string exactly when the text is all
      whitespace. */
  lemma CleanEmptyIff(text: string)
    ensures Clean(text) == [] <==> AllSpace(text)
  {
    var safe := Sanitise(text);
    SanitiseShape(text);
    var collapsed := CollapseSpace(safe);
    CollapseSpaceShape(safe);
    var lo, hi := StripBounds(collapsed);
    if AllSpace(text) {
      assert AllSpace(safe);
      assert AllSpace(collapsed);
    } else {
      var j :| 0 <= j < |text| && !IsSpace(text[j]);
      CollapseKeepsNonSpace(safe, j);
      var k :| 0 <= k < |collapsed| && !IsSpace(collapsed[k]);
      assert lo <= k < hi;
    }
  }

  /** The caps of `download`: `clean(...)[:100]` and `clean(...)[:50]`. */
  function CapTitle(title: string): (r: string)
    ensures |r| <= 100
  {
    Take(Clean(title), 100)
  }

  function CapArtist(artist: string): (r: string)
    ensures |r| <= 50
  {
    Take(Clean(artist), 50)
  }

  /** A capped name is a prefix of the clean name: it keeps every safety
      property except that the cut may end it on a space, and it is empty
      only when the raw name was all whitespace. */
  lemma {:induction false} CapKeepsSafety(raw: string, n: nat)
    requires n > 0
    ensures var r := Take(Clean(raw), n);
      && |r| <= n
      && NoIllegal(r) && OnlyPlainSpaces(r) && NoDoubleSpace(r)
      && (r == [] || !IsSpace(r[0]))
      && (r == [] <==> AllSpace(raw))
  {
    CleanIsClean(raw);
    CleanEmptyIff(raw);
    var c := Clean(raw);
    var r := Take(c, n);
    SliceKeepsShape(c, 0, |r|);
    assert r == c[0..|r|];
  }

  // ---------------------------------------------------------------------
  // Extension, filename and mp3 path

  /** `"m4a" if ".m4a" in streaming_url else "mp3"` */
  function Extension(streamingUrl: string): (ext: string)
    ensures ext == "m4a" <==> Contains(streamingUrl, ".m4a")
    ensures ext == "mp3" <==> !Contains(streamingUrl, ".m4a")
  {
    if Contains(streamingUrl, ".m4a") then "m4a" else "mp3"
  }

  /** `f"{artist} - {title} [{id}].{ext}"` */
  function FileName(m: Metadata, ext: string): string {
    m.artist + " - " + m.title + " [" + m.id + "]." + ext
  }

  /** The filename is the artist, ` - `, the title, ` [`, the id, `].` and
      the extension, in that order. */
  lemma FileNameLayout(m: Metadata, ext: string)
    ensures var f := FileName(m, ext);
      && |f| == |m.artist| + |m.title| + |m.id| + |ext| + 7
      && f[..|m.artist|] == m.artist
      && f[|m.artist|..|m.artist| + 3] == " - "
      && f[|m.artist| + 3..|m.artist| + 3 + |m.title|] == m.title
      && f[|m.artist| + 3 + |m.title|..|m.artist| + 5 + |m.title|] == " ["
      && f[|f| - |ext| - 2..] == "]." + ext
      && f[|f| - |ext| - 2 - |m.id|..|f| - |ext| - 2] == m.id
  {
  }

  /** The last index of `c` in `s`, as `rsplit(c, 1)` finds it. */
  function LastIndexOf(s: string, c: char): (r: Option<nat>)
    ensures r.Some? ==> r.value < |s| && s[r.value] == c && forall j :: r.value < j < |s| ==> s[j] != c
    ensures r.None? ==> forall j :: 0 <= j < |s| ==> s[j] != c
  {
    if s == [] then None
    else if s[|s| - 1] == c then Some(|s| - 1)
    else LastIndexOf(s[..|s| - 1], c)
  }

  /** `dest_path.rsplit('.', 1)[0] + '.mp3'` */
  function Mp3Path(dest: string): string {
    (match LastIndexOf(dest, '.') case Some(k) => dest[..k] case None => dest) + ".mp3"
  }

  /** The mp3 path replaces the text after the last dot by `mp3`. */
  lemma Mp3PathReplacesExtension(stem: string, ext: string)
    requires '.' !in ext
    ensures Mp3Path(stem + "." + ext) == stem + ".mp3"
  {
    var dest := stem + "." + ext;
    var k := LastIndexOf(dest, '.');
    assert dest[|stem|] == '.';
    assert forall j :: |stem| < j < |dest| ==> dest[j] == ext[j - |stem| - 1];
    assert k == Some(|stem|);
    assert dest[..|stem|] == stem;
  }

  /** The m4a download converts only for audio requests, an m4a stream and
      an available ffmpeg. */
  predicate ShouldConvert(format: OutputFormat, ext: string, hasFfmpeg: bool) {
    format == Audio && ext == "m4a" && hasFfmpeg
  }

  /** The path `download` returns: the mp3 when a conversion ran and left the
      mp3 file behind, otherwise the downloaded file. */
  function ResultPath(dest: string, converted: bool, mp3Exists: bool): (p: string)
    ensures p == dest || (converted && mp3Exists)
  {
    if converted && mp3Exists then Mp3Path(dest) else dest
  }

  /** For an m4a download the result is the same name with `.mp3`, or the
      m4a file itself when the conversion left no mp3 behind. */
  lemma ResultPathOfM4a(dir: string, m: Metadata, hasFfmpeg: bool, format: OutputFormat, mp3Exists: bool)
    ensures var dest := JoinPath(dir, FileName(m, "m4a"));
      var conv := ShouldConvert(format, "m4a", hasFfmpeg);
      && dest[|dest| - 4..] == ".m4a"
      && ResultPath(dest, conv, mp3Exists) ==
         if conv && mp3Exists then dest[..|dest| - 4] + ".mp3" else dest
  {
    var dest := JoinPath(dir, FileName(m, "m4a"));
    var stem := dest[..|dest| - 4];
    assert dest == stem + "." + "m4a";
    Mp3PathReplacesExtension(stem, "m4a");
  }

  // ---------------------------------------------------------------------
  // The HTTP transfer

  /** The response: the `content-length` header as an int (0 when absent)
      and the sizes of the successive `read` calls; a read of size 0 ends the
      transfer. */
  datatype Response = Response(contentLength: int, chunks: seq<nat>)

  /** The bytes received before the first empty read. */
  function Received(chunks: seq<nat>): nat {
    if chunks == [] || chunks[0] == 0 then 0 else chunks[0] + Received(chunks[1..])
  }

  /** `60 + (downloaded / total) * 35` */
  function TransferPercent(downloaded: nat, total: int): real
    requires total > 0
  {
    60.0 + (downloaded as real / total as real) * 35.0
  }

  function TransferEvent(downloaded: nat, total: int): Progress
    requires total > 0
  {
    Event(TransferPercent(downloaded, total), Downloading, Transferred(downloaded / 1024, total / 1024))
  }

  /** The events of the transfer loop, `done` bytes having arrived already:
      one per non-empty read when the length is known, none otherwise. */
  function TransferEvents(chunks: seq<nat>, total: int, done: nat): seq<Progress> {
    if chunks == [] || chunks[0] == 0 then []
    else
      var now := done + chunks[0];
      (if total > 0 then [TransferEvent(now, total)] else []) + TransferEvents(chunks[1..], total, now)
  }

  lemma TransferPercentRises(d1: nat, d2: nat, total: int)
    requires total > 0 && d1 < d2
    ensures TransferPercent(d1, total) < TransferPercent(d2, total)
  {
    assert d1 as real / total as real < d2 as real / total as real;
  }

  lemma TransferPercentBounds(d: nat, total: int)
    requires total > 0 && 0 < d
    ensures 60.0 < TransferPercent(d, total)
    ensures TransferPercent(d, total) <= 95.0 <==> d <= total
  {
    var q := d as real / total as real;
    assert q * total as real == d as real;
    if d <= total {
      assert q <= 1.0;
    } else {
      assert q > 1.0;
    }
  }

  /** The transfer reports strictly rising percents, all above 60, and all
      at most 95 exactly when no more than the declared length arrives. */
  lemma {:induction false} TransferEventsRise(chunks: seq<nat>, total: int, done: nat)
    ensures var es := TransferEvents(chunks, total, done);
      && (total <= 0 ==> es == [])
      && (forall i, j :: 0 <= i < j < |es| ==> es[i].percent < es[j].percent)
      && (forall i :: 0 <= i < |es| ==> 60.0 < es[i].percent && es[i].status == Downloading)
      && (total > 0 && done + Received(chunks) <= total ==> forall i :: 0 <= i < |es| ==> es[i].percent <= 95.0)
      && (total > 0 && Received(chunks) > 0 ==>
            |es| > 0 && es[|es| - 1].percent == TransferPercent(done + Received(chunks), total))
  {
    if chunks != [] && chunks[0] != 0 {
      var now := done + chunks[0];
      var rest := TransferEvents(chunks[1..], total, now);
      TransferEventsRise(chunks[1..], total, now);
      if total > 0 {
        var es := TransferEvents(chunks, total, done);
        assert es == [TransferEvent(now, total)] + rest;
        TransferPercentBounds(now, total);
        forall j | 0 < j < |es| ensures es[0].percent < es[j].percent {
          assert es[j] == rest[j - 1];
          TransferLaterAbove(chunks[1..], total, now, j - 1);
        }
      }
    }
  }

  /** Every later event of the transfer is above the percent already
      reached. */
  lemma {:induction false} TransferLaterAbove(chunks: seq<nat>, total: int, done: nat, j: nat)
    requires total > 0 && j < |TransferEvents(chunks, total, done)|
    ensures TransferPercent(done, total) < TransferEvents(chunks, total, done)[j].percent
  {
    var now := done + chunks[0];
    TransferPercentRises(done, now, total);
    if j > 0 {
      TransferLaterAbove(chunks[1..], total, now, j - 1);
    }
  }

  // ---------------------------------------------------------------------
  // The download as a whole

  const StartText := "Iniciando descarga de Audiomack..."
  const LoadingPageText := "Cargando página..."
  const ClosingPopupsText := "Cerrando popups..."
  const StartingPlaybackText := "Iniciando reproducción..."
  const WaitingAudioText := "Esperando carga de audio..."
  const SearchingUrlText := "Buscando URL de audio..."
  const ConvertingText := "Convirtiendo a MP3..."
  const NoStreamingUrlError := "No se pudo obtener la URL de streaming."
  const PlayButtonErrorPrefix := "No se encontró botón de play: "

  /** What the headless browser shows for the page: the text of the first
      `h1` (`None` when there is none), the error raised while waiting for
      the play button (`None` when it was found and clicked), and the
      performance log read after playback started. */
  datatype Page = Page(h1: Option<string>, playButtonError: Option<string>, log: seq<LogEntry>)

  /** What the outside world does during one download: the page, the HTTP
      response for the streaming URL (or the text of the exception
      `urlopen` raises), and whether ffmpeg leaves an mp3 file behind. */
  datatype Session = Session(page: Page, transfer: Result<Response>, mp3Created: bool)

  /** The events `_extract_streaming_url` reports before the play button. */
  const LoadingEvents: seq<Progress> := [
    Event(10.0, Downloading, Literal(LoadingPageText)),
    Event(15.0, Downloading, Literal(ClosingPopupsText)),
    Event(25.0, Downloading, Literal(StartingPlaybackText))
  ]

  /** The events it reports after the play button was clicked. */
  const ListeningEvents: seq<Progress> := [
    Event(35.0, Downloading, Literal(WaitingAudioText)),
    Event(50.0, Downloading, Literal(SearchingUrlText))
  ]

  /** `_extract_streaming_url(url)`: the reported events and either the
      streaming URL (if the log has one) with the page metadata, or the
      exception raised when the play button never appears. */
  function Extract(url: string, page: Page): (r: (Result<(Option<string>, Metadata)>, seq<Progress>))
    ensures r.0.Failure? <==> page.playButtonError.Some?
    ensures r.0.Failure? ==> r.0.error == PlayButtonErrorPrefix + page.playButtonError.value && r.1 == LoadingEvents
    ensures r.0.Success? ==> r.1 == LoadingEvents + ListeningEvents
    ensures r.0.Success? ==> r.0.value.1.id != [] && (r.0.value.0.Some? ==> Contains(r.0.value.0.value, StreamingHost))
  {
    match page.playButtonError
    case Some(e) => (Failure(PlayButtonErrorPrefix + e), LoadingEvents)
    case None =>
      PageMetadataNonEmpty(url, page.h1);
      var found := FirstStreamingUrl(page.log);
      (Success((found, PageMetadata(url, page.h1))), LoadingEvents + ListeningEvents)
  }

  /** The capped metadata `download` names the file after. */
  function Capped(m: Metadata): (c: Metadata)
    ensures |c.title| <= 100 && |c.artist| <= 50 && c.id == m.id
  {
    Metadata(CapTitle(m.title), CapArtist(m.artist), m.id)
  }

  /** The info mapping a successful download returns. */
  function ResultInfo(m: Metadata, path: string): Info {
    map["title" := m.title, "artist" := m.artist, "id" := m.id, "filepath" := path]
  }

  /** The conversion step after the transfer, for a file saved at `dest`
      with extension `ext`: the path returned, the cache left and the
      events reported. ffmpeg is looked for only for an audio request of an
      m4a stream, and looked up once more to run it. */
  function Conversion(format: OutputFormat, ext: string, dest: string, cache: Option<string>, tools: Tools,
                      mp3Created: bool): (r: (string, Option<string>, seq<Progress>))
    ensures r.2 == [] || r.2 == [Event(96.0, Processing, Literal(ConvertingText))]
    ensures r.2 != [] <==> ShouldConvert(format, ext, FfmpegFound(cache, tools))
    ensures r.0 == ResultPath(dest, r.2 != [], mp3Created)
    ensures r.2 == [] ==> r.1 == cache
  {
    var (found, c1) := if format == Audio && ext == "m4a" then Resolve(cache, tools) else (None, cache);
    var convert := ShouldConvert(format, ext, found.Some?);
    var c2 := if convert then Resolve(c1, tools).1 else c1;
    (ResultPath(dest, convert, mp3Created), c2,
     if convert then [Event(96.0, Processing, Literal(ConvertingText))] else [])
  }

  /** `download` from the moment the streaming URL is known: the events
      from the 55 % marker on, and the result. */
  function Fetch(config: Config, cache: Option<string>, tools: Tools, s: Session, streaming: string, m: Metadata): Outcome {
    var ext := Extension(streaming);
    var dest := JoinPath(config.outputDir, FileName(m, ext));
    var fetching := Event(55.0, Downloading, Fetching(m.title));
    match s.transfer
    case Failure(e) => Outcome(Failure(e), [fetching], cache)
    case Success(resp) =>
      var (path, c, converting) := Conversion(config.format, ext, dest, cache, tools, s.mp3Created);
      Outcome(Success(ResultInfo(m, path)),
              [fetching] + TransferEvents(resp.chunks, resp.contentLength, 0) + converting
              + [Event(100.0, Finished, Completed(m.title))],
              c)
  }

  /** `download(config)` with the downloader's ffmpeg cache `cache`, the
      ffmpeg lookups `tools` and the outside world `s`. */
  function Download(config: Config, cache: Option<string>, tools: Tools, s: Session): Outcome {
    var start := Event(0.0, Downloading, Literal(StartText));
    var (extracted, browsing) := Extract(config.url, s.page);
    if extracted.Failure? then Outcome(Failure(extracted.error), [start] + browsing, cache)
    else if !Truthy(extracted.value.0) then Outcome(Failure(NoStreamingUrlError), [start] + browsing, cache)
    else
      var o := Fetch(config, cache, tools, s, extracted.value.0.value, Capped(extracted.value.1));
      Outcome(o.result, [start] + browsing + o.events, o.cache)
  }

  /** No event of `es` is an error or a completion. */
  predicate Quiet(es: seq<Progress>) {
    forall i :: 0 <= i < |es| ==> es[i].status != Error && es[i].status != Finished
  }

  lemma QuietConcat(a: seq<Progress>, b: seq<Progress>)
    requires Quiet(a) && Quiet(b)
    ensures Quiet(a + b)
  {
    forall i | 0 <= i < |a + b| ensures (a + b)[i].status != Error && (a + b)[i].status != Finished {
      if i < |a| { assert (a + b)[i] == a[i]; } else { assert (a + b)[i] == b[i - |a|]; }
    }
  }

  /** The transfer and conversion part reports no error and ends with the
      completion event exactly when it succeeds. */
  lemma FetchReports(config: Config, cache: Option<string>, tools: Tools, s: Session, streaming: string, m: Metadata)
    ensures var o := Fetch(config, cache, tools, s, streaming, m);
      && |o.events| >= 1 && o.events[0] == Event(55.0, Downloading, Fetching(m.title))
      && (o.result.Failure? <==> s.transfer.Failure?)
      && (o.result.Failure? ==> Quiet(o.events) && o.result.error == s.transfer.error)
      && (o.result.Success? ==> Quiet(o.events[..|o.events| - 1])
                                && o.events[|o.events| - 1] == Event(100.0, Finished, Completed(m.title))
                                && o.result.value["title"] == m.title)
  {
    var o := Fetch(config, cache, tools, s, streaming, m);
    if s.transfer.Success? {
      var resp := s.transfer.value;
      var ext := Extension(streaming);
      var dest := JoinPath(config.outputDir, FileName(m, ext));
      var (path, c, converting) := Conversion(config.format, ext, dest, cache, tools, s.mp3Created);
      var transfer := TransferEvents(resp.chunks, resp.contentLength, 0);
      TransferEventsRise(resp.chunks, resp.contentLength, 0);
      var body := [Event(55.0, Downloading, Fetching(m.title))] + transfer + converting;
      QuietConcat([Event(55.0, Downloading, Fetching(m.title))], transfer);
      QuietConcat([Event(55.0, Downloading, Fetching(m.title))] + transfer, converting);
      assert o.events == body + [Event(100.0, Finished, Completed(m.title))];
      assert o.events[..|o.events| - 1] == body;
    }
  }

  /** The browsing part reports only download events, rising from 10 to 50. */
  lemma ExtractEvents(url: string, page: Page)
    ensures var es := Extract(url, page).1;
      Quiet(es) && Rising(es) && PercentsWithin(es, 10.0, 50.0)
  {
    assert Quiet(LoadingEvents + ListeningEvents);
    assert Rising(LoadingEvents + ListeningEvents) && PercentsWithin(LoadingEvents + ListeningEvents, 10.0, 50.0);
  }

  /** `e`, then the events `es` that come after it. */
  lemma QuietCons(e: Progress, es: seq<Progress>)
    requires e.status == Downloading && Quiet(es)
    ensures Quiet([e] + es)
  {
    QuietConcat([e], es);
  }

  /** A quiet run followed by one whose last event is the only loud one. */
  lemma QuietBeforeLast(a: seq<Progress>, b: seq<Progress>)
    requires |b| >= 1 && Quiet(a) && Quiet(b[..|b| - 1])
    ensures Quiet((a + b)[..|a + b| - 1])
  {
    assert (a + b)[..|a + b| - 1] == a + b[..|b| - 1];
    QuietConcat(a, b[..|b| - 1]);
  }

  /** How a failed Audiomack download looks: it starts at 0 and reports no
      error event at all (nor a completion); the exception is its only
      trace. */
  predicate FailsQuietly(o: Outcome) {
    && o.result.Failure? && |o.events| >= 1
    && o.events[0] == Event(0.0, Downloading, Literal(StartText))
    && Quiet(o.events)
  }

  /** How a successful download looks: it starts at 0 and reports
      `finished` once, as its last event, with the title it returns; no
      event before it is an error or a completion. */
  predicate Completes(o: Outcome) {
    && o.result.Success? && "title" in o.result.value && |o.events| >= 1
    && o.events[0] == Event(0.0, Downloading, Literal(StartText))
    && Quiet(o.events[..|o.events| - 1])
    && o.events[|o.events| - 1] == Event(100.0, Finished, Completed(o.result.value["title"]))
  }

  lemma DownloadFailsQuietly(config: Config, cache: Option<string>, tools: Tools, s: Session)
    requires Download(config, cache, tools, s).result.Failure?
    ensures FailsQuietly(Download(config, cache, tools, s))
  {
    var (extracted, browsing) := Extract(config.url, s.page);
    var head := [Event(0.0, Downloading, Literal(StartText))] + browsing;
    ExtractEvents(config.url, s.page);
    QuietCons(Event(0.0, Downloading, Literal(StartText)), browsing);
    if extracted.Success? && Truthy(extracted.value.0) {
      var streaming := extracted.value.0.value;
      var m := Capped(extracted.value.1);
      FetchReports(config, cache, tools, s, streaming, m);
      QuietConcat(head, Fetch(config, cache, tools, s, streaming, m).events);
    }
  }

  /** Once a streaming URL was found, the download is the browsing part
      followed by the fetch of that URL under the capped names. */
  lemma DownloadAfterExtract(config: Config, cache: Option<string>, tools: Tools, s: Session)
    requires Extract(config.url, s.page).0.Success? && Truthy(Extract(config.url, s.page).0.value.0)
    ensures var ex := Extract(config.url, s.page);
      var f := Fetch(config, cache, tools, s, ex.0.value.0.value, Capped(ex.0.value.1));
      Download(config, cache, tools, s)
        == Outcome(f.result, [Event(0.0, Downloading, Literal(StartText))] + ex.1 + f.events, f.cache)
  {
  }

  /** A download that found no streaming URL raises with what the
      browsing left: the play-button error, or the missing-URL error. */
  lemma DownloadStopsEarly(config: Config, cache: Option<string>, tools: Tools, s: Session)
    requires var ex := Extract(config.url, s.page).0; ex.Failure? || !Truthy(ex.value.0)
    ensures var ex := Extract(config.url, s.page);
      Download(config, cache, tools, s)
        == Outcome(Failure(if ex.0.Failure? then ex.0.error else NoStreamingUrlError),
                   [Event(0.0, Downloading, Literal(StartText))] + ex.1, cache)
  {
  }

  /** Once the response arrived, the fetch is the 55 % report, the
      transfer, the conversion and the completion. */
  lemma FetchAfterTransfer(config: Config, cache: Option<string>, tools: Tools, s: Session, streaming: string, m: Metadata)
    requires s.transfer.Success?
    ensures var ext := Extension(streaming);
      var conv := Conversion(config.format, ext, JoinPath(config.outputDir, FileName(m, ext)), cache, tools, s.mp3Created);
      Fetch(config, cache, tools, s, streaming, m)
        == Outcome(Success(ResultInfo(m, conv.0)),
                   [Event(55.0, Downloading, Fetching(m.title))] + (TransferEvents(s.transfer.value.chunks, s.transfer.value.contentLength, 0) + conv.2)
                   + [Event(100.0, Finished, Completed(m.title))],
                   conv.1)
  {
    var ext := Extension(streaming);
    var conv := Conversion(config.format, ext, JoinPath(config.outputDir, FileName(m, ext)), cache, tools, s.mp3Created);
    var fetching := Event(55.0, Downloading, Fetching(m.title));
    var t := TransferEvents(s.transfer.value.chunks, s.transfer.value.contentLength, 0);
    assert [fetching] + t + conv.2 == [fetching] + (t + conv.2);
  }

  /** A quiet beginning followed by a fetch that completes makes a run
      that completes. */
  lemma CompletesAfter(head: seq<Progress>, f: Outcome, o: Outcome, title: string)
    requires Quiet(head) && |head| >= 1 && head[0] == Event(0.0, Downloading, Literal(StartText))
    requires f.result.Success? && |f.events| >= 1 && Quiet(f.events[..|f.events| - 1])
    requires f.events[|f.events| - 1] == Event(100.0, Finished, Completed(title))
    requires "title" in f.result.value && f.result.value["title"] == title
    requires o == Outcome(f.result, head + f.events, f.cache)
    ensures Completes(o)
  {
    QuietBeforeLast(head, f.events);
  }

  lemma DownloadCompletes(config: Config, cache: Option<string>, tools: Tools, s: Session)
    requires Download(config, cache, tools, s).result.Success?
    ensures Completes(Download(config, cache, tools, s))
  {
    var ex := Extract(config.url, s.page);
    var start := Event(0.0, Downloading, Literal(StartText));
    ExtractEvents(config.url, s.page);
    QuietCons(start, ex.1);
    var m := Capped(ex.0.value.1);
    var f := Fetch(config, cache, tools, s, ex.0.value.0.value, m);
    FetchReports(config, cache, tools, s, ex.0.value.0.value, m);
    DownloadAfterExtract(config, cache, tools, s);
    CompletesAfter([start] + ex.1, f, Download(config, cache, tools, s), m.title);
  }

  /** Where a download from `streaming` into `dir` saves its file: inside
      `dir`, the `.m4a` stream itself unless `toMp3`, in which case the
      `.mp3` beside it; an mp3 stream is kept as it is. */
  predicate SavedPath(path: string, dir: string, streaming: string, toMp3: bool) {
    && |path| >= |dir| + 4 && path[..|dir|] == dir
    && path[|path| - 4..] in {".mp3", ".m4a"}
    && (path[|path| - 4..] == ".m4a" <==> Contains(streaming, ".m4a") && !toMp3)
  }

  /** The info a successful download returns: exactly the four keys; title
      and artist capped and free of the characters `clean` replaces; a
      non-empty id; the path as SavedPath says. */
  predicate SavedFile(info: Info, dir: string, streaming: string, toMp3: bool) {
    && info.Keys == {"title", "artist", "id", "filepath"}
    && |info["title"]| <= 100 && |info["artist"]| <= 50
    && NoIllegal(info["title"]) && NoIllegal(info["artist"])
    && info["id"] != []
    && SavedPath(info["filepath"], dir, streaming, toMp3)
  }

  /** A successful download clicked the play button, found a streaming URL
      in the log and saved the file as SavedFile says, where the mp3
      replaces the m4a exactly for an audio request with ffmpeg found and an
      mp3 left behind by the conversion. */
  lemma DownloadResult(config: Config, cache: Option<string>, tools: Tools, s: Session)
    requires Download(config, cache, tools, s).result.Success?
    ensures s.page.playButtonError.None? && FirstStreamingUrl(s.page.log).Some?
    ensures SavedFile(Download(config, cache, tools, s).result.value, config.outputDir, FirstStreamingUrl(s.page.log).value,
                      config.format == Audio && FfmpegFound(cache, tools) && s.mp3Created)
  {
    var ex := Extract(config.url, s.page);
    ExtractFound(config.url, s.page);
    DownloadAfterExtract(config, cache, tools, s);
    var streaming := ex.0.value.0.value;
    var m := Capped(ex.0.value.1);
    CappedSafe(ex.0.value.1);
    FetchResult(config, cache, tools, s, streaming, m);
    SavedFileOf(Fetch(config, cache, tools, s, streaming, m), Download(config, cache, tools, s), m, config.outputDir,
                streaming, config.format == Audio && FfmpegFound(cache, tools) && s.mp3Created);
  }

  /** What a successful extraction holds: the first streaming URL of the
      log and the page metadata. */
  lemma ExtractFound(url: string, page: Page)
    requires Extract(url, page).0.Success?
    ensures Extract(url, page).0.value == (FirstStreamingUrl(page.log), PageMetadata(url, page.h1))
  {
  }

  /** The capped names are short and free of the characters `clean`
      replaces, and the id is kept. */
  lemma CappedSafe(m: Metadata)
    ensures var c := Capped(m);
      && |c.title| <= 100 && |c.artist| <= 50 && NoIllegal(c.title) && NoIllegal(c.artist) && c.id == m.id
  {
    CapKeepsSafety(m.title, 100);
    CapKeepsSafety(m.artist, 50);
  }

  /** The SavedFile properties of a run `o` that returns what the fetch `f`
      returned, from capped names. */
  lemma SavedFileOf(f: Outcome, o: Outcome, m: Metadata, dir: string, streaming: string, toMp3: bool)
    requires f.result.Success? && o.result == f.result
    requires "filepath" in f.result.value && f.result.value == ResultInfo(m, f.result.value["filepath"])
    requires SavedPath(f.result.value["filepath"], dir, streaming, toMp3)
    requires |m.title| <= 100 && |m.artist| <= 50 && NoIllegal(m.title) && NoIllegal(m.artist) && m.id != []
    ensures SavedFile(o.result.value, dir, streaming, toMp3)
  {
  }

  /** Where the file ends up, for an extension of `mp3` or `m4a`: inside
      `dir`, with the `.m4a` suffix exactly when the stream was m4a and no
      conversion left an mp3 behind. */
  lemma FilePlacement(dir: string, m: Metadata, ext: string, convert: bool, mp3Created: bool)
    requires ext in {"mp3", "m4a"} && (convert ==> ext == "m4a")
    ensures var path := ResultPath(JoinPath(dir, FileName(m, ext)), convert, mp3Created);
      && |path| >= |dir| + 4 && path[..|dir|] == dir
      && path[|path| - 4..] in {".mp3", ".m4a"}
      && (path[|path| - 4..] == ".m4a" <==> ext == "m4a" && !(convert && mp3Created))
  {
    DestLayout(dir, m, ext);
    PathPlacement(dir, JoinPath(dir, FileName(m, ext)), ext, convert, mp3Created);
  }

  /** FilePlacement for any download path `dest` laid out by DestLayout. */
  lemma PathPlacement(dir: string, dest: string, ext: string, convert: bool, mp3Created: bool)
    requires ext in {"mp3", "m4a"} && (convert ==> ext == "m4a")
    requires |dest| >= |dir| + 4 && dest[..|dir|] == dir && dest[|dest| - 4..] == "." + ext
    ensures var path := ResultPath(dest, convert, mp3Created);
      && |path| >= |dir| + 4 && path[..|dir|] == dir
      && path[|path| - 4..] in {".mp3", ".m4a"}
      && (path[|path| - 4..] == ".m4a" <==> ext == "m4a" && !(convert && mp3Created))
  {
    assert ".mp3"[2] != ".m4a"[2];
    if convert && mp3Created {
      Mp3Placement(dir, dest);
    } else if ext == "mp3" {
      assert "." + ext == ".mp3";
    } else {
      assert "." + ext == ".m4a";
    }
  }

  /** Converting an m4a file `dest` in `dir` leaves the mp3 beside it. */
  lemma Mp3Placement(dir: string, dest: string)
    requires |dest| >= |dir| + 4 && dest[..|dir|] == dir && dest[|dest| - 4..] == ".m4a"
    ensures var path := Mp3Path(dest);
      |path| >= |dir| + 4 && path[..|dir|] == dir && path[|path| - 4..] == ".mp3"
  {
    var stem := dest[..|dest| - 4];
    assert dest == stem + "." + "m4a";
    Mp3PathReplacesExtension(stem, "m4a");
    var path := stem + ".mp3";
    assert path[..|dir|] == dest[..|dir|];
  }

  /** The downloaded file lies in `dir` and ends with the extension. */
  lemma DestLayout(dir: string, m: Metadata, ext: string)
    requires |ext| == 3
    ensures var dest := JoinPath(dir, FileName(m, ext));
      |dest| >= |dir| + 4 && dest[..|dir|] == dir && dest[|dest| - 4..] == "." + ext
  {
    var name := FileName(m, ext);
    var dest := JoinPath(dir, name);
    FileNameLayout(m, ext);
    assert name[|name| - 4..] == "." + ext;
    assert dest[|dest| - |name|..] == name;
    assert dest[|dest| - 4..] == name[|name| - 4..];
  }

  /** The path part of DownloadResult, for a known streaming URL. */
  lemma FetchResult(config: Config, cache: Option<string>, tools: Tools, s: Session, streaming: string, m: Metadata)
    requires Fetch(config, cache, tools, s, streaming, m).result.Success?
    ensures var info := Fetch(config, cache, tools, s, streaming, m).result.value;
      && info == ResultInfo(m, info["filepath"])
      && SavedPath(info["filepath"], config.outputDir, streaming,
                   config.format == Audio && FfmpegFound(cache, tools) && s.mp3Created)
  {
    var ext := Extension(streaming);
    var dest := JoinPath(config.outputDir, FileName(m, ext));
    var (path, c, converting) := Conversion(config.format, ext, dest, cache, tools, s.mp3Created);
    FilePlacement(config.outputDir, m, ext, converting != [], s.mp3Created);
  }
}
