/** The yt-dlp command line `download` builds for one URL, including the
    metadata arguments of `build_metadata_args`.  The command is a sequence
    of options (a name and its arguments); the argument vector is
    `yt-dlp`, the flattened options, then the URL. */
module Planner {
  import opened Text
  import opened Values
  import opened Config
  import opened Classify

  /** The settings one `download` call resolved from its arguments and the
      configuration. */
  datatype Request = Request(
    fmt: string,
    outputDir: string,
    template: string,
    organize: bool,
    video: bool,
    dateRange: Option<(string, Option<string>)>)

  /** The yt-dlp options the planner uses. */
  datatype Flag =
    | YesPlaylist
    | NoPlaylist
    | Format
    | ExtractAudio
    | AudioFormat
    | AudioQuality
    | Output
    | EmbedMetadata
    | AddMetadata
    | ParseMetadata
    | EmbedThumbnail
    | ConvertThumbnails
    | NoWarnings
    | IgnoreErrors
    | NoOverwrites
    | Retries
    | LimitRate
    | GeoBypass
    | PreferFreeFormats
    | DateAfter
    | DateBefore
    | PostprocessorArgs
  {
    function Text(): string {
      match this
      case YesPlaylist => "--yes-playlist"
      case NoPlaylist => "--no-playlist"
      case Format => "-f"
      case ExtractAudio => "--extract-audio"
      case AudioFormat => "--audio-format"
      case AudioQuality => "--audio-quality"
      case Output => "-o"
      case EmbedMetadata => "--embed-metadata"
      case AddMetadata => "--add-metadata"
      case ParseMetadata => "--parse-metadata"
      case EmbedThumbnail => "--embed-thumbnail"
      case ConvertThumbnails => "--convert-thumbnails"
      case NoWarnings => "--no-warnings"
      case IgnoreErrors => "--ignore-errors"
      case NoOverwrites => "--no-overwrites"
      case Retries => "--retries"
      case LimitRate => "--limit-rate"
      case GeoBypass => "--geo-bypass"
      case PreferFreeFormats => "--prefer-free-formats"
      case DateAfter => "--dateafter"
      case DateBefore => "--datebefore"
      case PostprocessorArgs => "--postprocessor-args"
    }
  }

  datatype Opt = Opt(flag: Flag, args: seq<string>)

  function Flatten(opts: seq<Opt>): seq<string> {
    if opts == [] then [] else [opts[0].flag.Text()] + opts[0].args + Flatten(opts[1..])
  }

  lemma {:induction false} FlattenAppend(a: seq<Opt>, b: seq<Opt>)
    ensures Flatten(a + b) == Flatten(a) + Flatten(b)
  {
    if a == [] {
      assert a + b == b;
    } else {
      assert (a + b)[1..] == a[1..] + b;
      FlattenAppend(a[1..], b);
    }
  }

  /** How many options of the command carry this name. */
  function Count(opts: seq<Opt>, flag: Flag): nat {
    if opts == [] then 0 else (if opts[0].flag == flag then 1 else 0) + Count(opts[1..], flag)
  }

  lemma {:induction false} CountAppend(a: seq<Opt>, b: seq<Opt>, flag: Flag)
    ensures Count(a + b, flag) == Count(a, flag) + Count(b, flag)
  {
    if a == [] {
      assert a + b == b;
    } else {
      assert (a + b)[1..] == a[1..] + b;
      CountAppend(a[1..], b, flag);
    }
  }

  /** The arguments of the first option with this name. */
  function ArgsOf(opts: seq<Opt>, flag: Flag): Option<seq<string>> {
    if opts == [] then None
    else if opts[0].flag == flag then Some(opts[0].args)
    else ArgsOf(opts[1..], flag)
  }

  lemma {:induction false} ArgsOfAppend(a: seq<Opt>, b: seq<Opt>, flag: Flag)
    ensures ArgsOf(a + b, flag) == if Count(a, flag) == 0 then ArgsOf(b, flag) else ArgsOf(a, flag)
  {
    if a == [] {
      assert a + b == b;
    } else {
      assert (a + b)[1..] == a[1..] + b;
      ArgsOfAppend(a[1..], b, flag);
    }
  }

  lemma {:induction false} ArgsOfPresent(opts: seq<Opt>, flag: Flag)
    ensures ArgsOf(opts, flag).Some? <==> Count(opts, flag) > 0
  {
    if opts != [] {
      ArgsOfPresent(opts[1..], flag);
    }
  }

  // ---------------------------------------------------------------------
  // The pieces of the command, in the order `download` appends them

  /** Playlist mode: the URL type's tag mentions a playlist or the URL holds
      a `&list=` parameter. */
  predicate PlaylistMode(url: string) {
    Contains(DetectUrlType(url).Name(), "playlist") || Contains(url, "&list=")
  }

  function PlaylistOpts(url: string): (r: seq<Opt>)
    ensures NamedFrom(r, 0)
  {
    if PlaylistMode(url) then [Opt(YesPlaylist, [])] else [Opt(NoPlaylist, [])]
  }

  function FormatOpts(req: Request): (r: seq<Opt>)
    ensures NamedFrom(r, 1)
  {
    if req.video then [Opt(Format, ["bestvideo+bestaudio/best"])]
    else [Opt(Format, ["bestaudio/best"]), Opt(ExtractAudio, []),
          Opt(AudioFormat, [req.fmt]), Opt(AudioQuality, ["0"])]
  }

  /** `os.path.join(a, b)` on POSIX: an absolute component discards what
      precedes it; otherwise a `/` is inserted unless `a` is empty or already
      ends with one. */
  function PathJoin(a: string, b: string): (r: string)
    ensures EndsWith(r, b)
    ensures !StartsWith(b, "/") ==> StartsWith(r, a)
  {
    if StartsWith(b, "/") then b
    else if a == [] || EndsWith(a, "/") then a + b
    else a + "/" + b
  }

  /** The `-o` path: the template under the output directory, inside a
      per-extractor folder when organising by source. */
  function OutputPath(req: Request): string {
    if req.organize then PathJoin(PathJoin(req.outputDir, "%(extractor)s"), req.template)
    else PathJoin(req.outputDir, req.template)
  }

  /** `build_metadata_args(url, playlist_url)`. */
  function MetadataOpts(s: Settings, url: string, playlistUrl: Option<string>): (r: seq<Opt>)
    ensures NamedFrom(r, 3)
  {
    (if Truthy(Get(s, "embed_source_url"))
     then [Opt(AddMetadata, []), Opt(ParseMetadata, ["url:" + url]),
           Opt(ParseMetadata, ["webpage_url:%(meta_url)s"])]
     else [])
    + (if playlistUrl.Some? && playlistUrl.value != "" && Truthy(Get(s, "embed_playlist_url"))
       then [Opt(ParseMetadata, ["playlist_url:" + playlistUrl.value])]
       else [])
  }

  /** Metadata embedding, audio mode only. */
  function EmbedOpts(s: Settings, req: Request, url: string): (r: seq<Opt>)
    ensures NamedFrom(r, 3)
  {
    if Truthy(Get(s, "embed_metadata")) && !req.video then
      [Opt(EmbedMetadata, [])] + MetadataOpts(s, url, if PlaylistMode(url) then Some(url) else None)
    else []
  }

  function ThumbnailOpts(s: Settings, req: Request): (r: seq<Opt>)
    ensures NamedFrom(r, 4)
  {
    if Truthy(Get(s, "embed_thumbnail")) && !req.video
    then [Opt(EmbedThumbnail, []), Opt(ConvertThumbnails, ["jpg"])]
    else []
  }

  function CommonOpts(s: Settings): (r: seq<Opt>)
    requires HasDefaults(s)
    ensures NamedFrom(r, 5)
  {
    [Opt(NoWarnings, []), Opt(IgnoreErrors, []), Opt(NoOverwrites, []),
     Opt(Retries, [PyStr(s["retries"])])]
  }

  /** A truthy rate limit that is not a string cannot be passed to the
      subprocess: building the argument vector succeeds, running it raises. */
  predicate RateLimitUsable(s: Settings) {
    !Truthy(Get(s, "rate_limit")) || Get(s, "rate_limit").Str?
  }

  function NetworkOpts(s: Settings): (r: seq<Opt>)
    requires RateLimitUsable(s)
    ensures NamedFrom(r, 6)
  {
    (if Truthy(Get(s, "rate_limit")) then [Opt(LimitRate, [Get(s, "rate_limit").s])] else [])
    + (if Truthy(Get(s, "geo_bypass")) then [Opt(GeoBypass, [])] else [])
    + (if Truthy(Get(s, "prefer_free_formats")) then [Opt(PreferFreeFormats, [])] else [])
  }

  function DateOpts(range: Option<(string, Option<string>)>): (r: seq<Opt>)
    ensures NamedFrom(r, 7)
  {
    if range.None? then []
    else
      [Opt(DateAfter, [range.value.0])]
      + (if range.value.1.Some? && range.value.1.value != ""
         then [Opt(DateBefore, [range.value.1.value])] else [])
  }

  const FlacArgs: string := "ffmpeg:-compression_level 0"
  const WavArgs: string := "ffmpeg:-c:a pcm_s24le"
  const LossyArgs: string := "ffmpeg:-q:a 0"

  function PostprocessorOpts(req: Request): (r: seq<Opt>)
    ensures NamedFrom(r, 8)
  {
    if req.video then []
    else if req.fmt == "flac" then [Opt(PostprocessorArgs, [FlacArgs])]
    else if req.fmt == "wav" then [Opt(PostprocessorArgs, [WavArgs])]
    else [Opt(PostprocessorArgs, [LossyArgs])]
  }

  /** The `k`-th piece of the command for `url`, in the order the pieces are
      appended. */
  function Piece(s: Settings, req: Request, url: string, k: nat): (r: seq<Opt>)
    requires HasDefaults(s) && RateLimitUsable(s)
    requires k < 9
    ensures NamedFrom(r, k)
  {
    match k
    case 0 => PlaylistOpts(url)
    case 1 => FormatOpts(req)
    case 2 => [Opt(Output, [OutputPath(req)])]
    case 3 => EmbedOpts(s, req, url)
    case 4 => ThumbnailOpts(s, req)
    case 5 => CommonOpts(s)
    case 6 => NetworkOpts(s)
    case 7 => DateOpts(req.dateRange)
    case _ => PostprocessorOpts(req)
  }

  /** The first `n` pieces. */
  function PiecesUpTo(s: Settings, req: Request, url: string, n: nat): (ps: seq<seq<Opt>>)
    requires HasDefaults(s) && RateLimitUsable(s)
    requires n <= 9
    ensures |ps| == n
    ensures forall j :: 0 <= j < n ==> ps[j] == Piece(s, req, url, j)
  {
    if n == 0 then [] else PiecesUpTo(s, req, url, n - 1) + [Piece(s, req, url, n - 1)]
  }

  /** All the pieces of the command for `url`. */
  function Pieces(s: Settings, req: Request, url: string): (ps: seq<seq<Opt>>)
    requires HasDefaults(s) && RateLimitUsable(s)
    ensures |ps| == 9
    ensures forall j :: 0 <= j < |ps| ==> ps[j] == Piece(s, req, url, j) && NamedFrom(ps[j], j)
  {
    PiecesUpTo(s, req, url, 9)
  }

  lemma PiecesAre(s: Settings, req: Request, url: string)
    requires HasDefaults(s) && RateLimitUsable(s)
    ensures Pieces(s, req, url) ==
            [PlaylistOpts(url), FormatOpts(req), [Opt(Output, [OutputPath(req)])],
             EmbedOpts(s, req, url), ThumbnailOpts(s, req), CommonOpts(s),
             NetworkOpts(s), DateOpts(req.dateRange), PostprocessorOpts(req)]
  {
    var ps := Pieces(s, req, url);
    assert ps[0] == Piece(s, req, url, 0);
    assert ps[1] == Piece(s, req, url, 1);
    assert ps[2] == Piece(s, req, url, 2);
    assert ps[3] == Piece(s, req, url, 3);
    assert ps[4] == Piece(s, req, url, 4);
    assert ps[5] == Piece(s, req, url, 5);
    assert ps[6] == Piece(s, req, url, 6);
    assert ps[7] == Piece(s, req, url, 7);
    assert ps[8] == Piece(s, req, url, 8);
  }

  function Join(ps: seq<seq<Opt>>): seq<Opt> {
    if ps == [] then [] else Join(ps[..|ps| - 1]) + ps[|ps| - 1]
  }

  /** Every option of the command for `url`, in order. */
  function Options(s: Settings, req: Request, url: string): seq<Opt>
    requires HasDefaults(s) && RateLimitUsable(s)
  {
    Join(Pieces(s, req, url))
  }

  lemma JoinSnoc(ps: seq<seq<Opt>>, p: seq<Opt>)
    ensures Join(ps + [p]) == Join(ps) + p
  {
    assert (ps + [p])[..|ps|] == ps;
  }

  lemma Join9(p0: seq<Opt>, p1: seq<Opt>, p2: seq<Opt>, p3: seq<Opt>, p4: seq<Opt>,
              p5: seq<Opt>, p6: seq<Opt>, p7: seq<Opt>, p8: seq<Opt>)
    ensures Join([p0, p1, p2, p3, p4, p5, p6, p7, p8]) == p0 + p1 + p2 + p3 + p4 + p5 + p6 + p7 + p8
  {
    JoinSnoc([], p0);
    assert [] + [p0] == [p0];
    assert [] + p0 == p0;
    JoinSnoc([p0], p1);
    assert [p0] + [p1] == [p0, p1];
    JoinSnoc([p0, p1], p2);
    assert [p0, p1] + [p2] == [p0, p1, p2];
    JoinSnoc([p0, p1, p2], p3);
    assert [p0, p1, p2] + [p3] == [p0, p1, p2, p3];
    JoinSnoc([p0, p1, p2, p3], p4);
    assert [p0, p1, p2, p3] + [p4] == [p0, p1, p2, p3, p4];
    JoinSnoc([p0, p1, p2, p3, p4], p5);
    assert [p0, p1, p2, p3, p4] + [p5] == [p0, p1, p2, p3, p4, p5];
    JoinSnoc([p0, p1, p2, p3, p4, p5], p6);
    assert [p0, p1, p2, p3, p4, p5] + [p6] == [p0, p1, p2, p3, p4, p5, p6];
    JoinSnoc([p0, p1, p2, p3, p4, p5, p6], p7);
    assert [p0, p1, p2, p3, p4, p5, p6] + [p7] == [p0, p1, p2, p3, p4, p5, p6, p7];
    JoinSnoc([p0, p1, p2, p3, p4, p5, p6, p7], p8);
    assert [p0, p1, p2, p3, p4, p5, p6, p7] + [p8] == [p0, p1, p2, p3, p4, p5, p6, p7, p8];
  }

  /** The option list is the pieces one after the other. */
  lemma OptionsAreConcat(s: Settings, req: Request, url: string)
    requires HasDefaults(s) && RateLimitUsable(s)
    ensures Options(s, req, url) ==
            PlaylistOpts(url) + FormatOpts(req) + [Opt(Output, [OutputPath(req)])]
            + EmbedOpts(s, req, url) + ThumbnailOpts(s, req) + CommonOpts(s)
            + NetworkOpts(s) + DateOpts(req.dateRange) + PostprocessorOpts(req)
  {
    PiecesAre(s, req, url);
    Join9(PlaylistOpts(url), FormatOpts(req), [Opt(Output, [OutputPath(req)])],
          EmbedOpts(s, req, url), ThumbnailOpts(s, req), CommonOpts(s),
          NetworkOpts(s), DateOpts(req.dateRange), PostprocessorOpts(req));
  }

  function Argv(opts: seq<Opt>, url: string): seq<string> {
    ["yt-dlp"] + Flatten(opts) + [url]
  }

  // ---------------------------------------------------------------------
  // Counting options across the pieces

  /** The piece of the command a flag belongs to. */
  function PieceOf(flag: Flag): nat {
    match flag
    case YesPlaylist | NoPlaylist => 0
    case Format | ExtractAudio | AudioFormat | AudioQuality => 1
    case Output => 2
    case EmbedMetadata | AddMetadata | ParseMetadata => 3
    case EmbedThumbnail | ConvertThumbnails => 4
    case NoWarnings | IgnoreErrors | NoOverwrites | Retries => 5
    case LimitRate | GeoBypass | PreferFreeFormats => 6
    case DateAfter | DateBefore => 7
    case PostprocessorArgs => 8
  }

  /** Every option of `opts` belongs to piece `j`. */
  predicate NamedFrom(opts: seq<Opt>, j: nat) {
    forall k :: 0 <= k < |opts| ==> PieceOf(opts[k].flag) == j
  }

  lemma {:induction false} CountAbsent(opts: seq<Opt>, j: nat, flag: Flag)
    requires NamedFrom(opts, j)
    ensures PieceOf(flag) != j ==> Count(opts, flag) == 0 && ArgsOf(opts, flag) == None
  {
    if opts != [] {
      assert NamedFrom(opts[1..], j) by {
        forall k | 0 <= k < |opts| - 1 ensures PieceOf(opts[1..][k].flag) == j {
          assert opts[1..][k] == opts[k + 1];
        }
      }
      CountAbsent(opts[1..], j, flag);
    }
  }

  /** A flag of none of the pieces does not occur in their concatenation. */
  lemma {:induction false} NoPieceHolds(ps: seq<seq<Opt>>, flag: Flag)
    requires forall j :: 0 <= j < |ps| ==> NamedFrom(ps[j], j)
    requires |ps| <= PieceOf(flag)
    ensures Count(Join(ps), flag) == 0 && ArgsOf(Join(ps), flag) == None
  {
    if ps != [] {
      var n := |ps| - 1;
      assert forall j :: 0 <= j < n ==> ps[..n][j] == ps[j];
      NoPieceHolds(ps[..n], flag);
      CountAbsent(ps[n], n, flag);
      CountAppend(Join(ps[..n]), ps[n], flag);
      ArgsOfAppend(Join(ps[..n]), ps[n], flag);
    }
  }

  /** A flag occurs in the concatenation of the pieces as in its own piece. */
  lemma {:induction false} OnlyPiece(ps: seq<seq<Opt>>, flag: Flag)
    requires forall j :: 0 <= j < |ps| ==> NamedFrom(ps[j], j)
    requires PieceOf(flag) < |ps|
    ensures Count(Join(ps), flag) == Count(ps[PieceOf(flag)], flag)
    ensures ArgsOf(Join(ps), flag) == ArgsOf(ps[PieceOf(flag)], flag)
  {
    var i := PieceOf(flag);
    var n := |ps| - 1;
    var init := ps[..n];
    assert Join(ps) == Join(init) + ps[n];
    assert forall j :: 0 <= j < |init| ==> init[j] == ps[j];
    CountAppend(Join(init), ps[n], flag);
    ArgsOfAppend(Join(init), ps[n], flag);
    if i == n {
      NoPieceHolds(init, flag);
    } else {
      OnlyPiece(init, flag);
      CountAbsent(ps[n], n, flag);
      ArgsOfPresent(ps[i], flag);
    }
  }

  /** Counting a flag in the command is counting it in its own piece. */
  lemma InPiece(s: Settings, req: Request, url: string, flag: Flag)
    requires HasDefaults(s) && RateLimitUsable(s)
    ensures var opts, i := Options(s, req, url), PieceOf(flag);
            && (i == 0 ==> Count(opts, flag) == Count(PlaylistOpts(url), flag) &&
                           ArgsOf(opts, flag) == ArgsOf(PlaylistOpts(url), flag))
            && (i == 1 ==> Count(opts, flag) == Count(FormatOpts(req), flag) &&
                           ArgsOf(opts, flag) == ArgsOf(FormatOpts(req), flag))
            && (i == 2 ==> Count(opts, flag) == 1 && ArgsOf(opts, flag) == Some([OutputPath(req)]))
            && (i == 3 ==> Count(opts, flag) == Count(EmbedOpts(s, req, url), flag) &&
                           ArgsOf(opts, flag) == ArgsOf(EmbedOpts(s, req, url), flag))
            && (i == 4 ==> Count(opts, flag) == Count(ThumbnailOpts(s, req), flag) &&
                           ArgsOf(opts, flag) == ArgsOf(ThumbnailOpts(s, req), flag))
            && (i == 5 ==> Count(opts, flag) == Count(CommonOpts(s), flag) &&
                           ArgsOf(opts, flag) == ArgsOf(CommonOpts(s), flag))
            && (i == 6 ==> Count(opts, flag) == Count(NetworkOpts(s), flag) &&
                           ArgsOf(opts, flag) == ArgsOf(NetworkOpts(s), flag))
            && (i == 7 ==> Count(opts, flag) == Count(DateOpts(req.dateRange), flag) &&
                           ArgsOf(opts, flag) == ArgsOf(DateOpts(req.dateRange), flag))
            && (i == 8 ==> Count(opts, flag) == Count(PostprocessorOpts(req), flag) &&
                           ArgsOf(opts, flag) == ArgsOf(PostprocessorOpts(req), flag))
  {
    OnlyPiece(Pieces(s, req, url), flag);
    if PieceOf(flag) == 2 {
      Count1(Opt(Output, [OutputPath(req)]), flag);
    }
  }

  /** The same, one piece at a time. */
  lemma InPlaylist(s: Settings, req: Request, url: string, flag: Flag)
    requires HasDefaults(s) && RateLimitUsable(s)
    requires PieceOf(flag) == 0
    ensures Count(Options(s, req, url), flag) == Count(PlaylistOpts(url), flag)
    ensures ArgsOf(Options(s, req, url), flag) == ArgsOf(PlaylistOpts(url), flag)
  {
    InPiece(s, req, url, flag);
  }

  lemma InFormat(s: Settings, req: Request, url: string, flag: Flag)
    requires HasDefaults(s) && RateLimitUsable(s)
    requires PieceOf(flag) == 1
    ensures Count(Options(s, req, url), flag) == Count(FormatOpts(req), flag)
    ensures ArgsOf(Options(s, req, url), flag) == ArgsOf(FormatOpts(req), flag)
  {
    InPiece(s, req, url, flag);
  }

  /** One output option, naming the resolved output path. */
  lemma OutputOption(s: Settings, req: Request, url: string)
    requires HasDefaults(s) && RateLimitUsable(s)
    ensures Count(Options(s, req, url), Output) == 1
    ensures ArgsOf(Options(s, req, url), Output) == Some([OutputPath(req)])
  {
    InPiece(s, req, url, Output);
  }

  lemma InEmbed(s: Settings, req: Request, url: string, flag: Flag)
    requires HasDefaults(s) && RateLimitUsable(s)
    requires PieceOf(flag) == 3
    ensures Count(Options(s, req, url), flag) == Count(EmbedOpts(s, req, url), flag)
    ensures ArgsOf(Options(s, req, url), flag) == ArgsOf(EmbedOpts(s, req, url), flag)
  {
    InPiece(s, req, url, flag);
  }

  lemma InThumbnail(s: Settings, req: Request, url: string, flag: Flag)
    requires HasDefaults(s) && RateLimitUsable(s)
    requires PieceOf(flag) == 4
    ensures Count(Options(s, req, url), flag) == Count(ThumbnailOpts(s, req), flag)
    ensures ArgsOf(Options(s, req, url), flag) == ArgsOf(ThumbnailOpts(s, req), flag)
  {
    InPiece(s, req, url, flag);
  }

  lemma InCommon(s: Settings, req: Request, url: string, flag: Flag)
    requires HasDefaults(s) && RateLimitUsable(s)
    requires PieceOf(flag) == 5
    ensures Count(Options(s, req, url), flag) == Count(CommonOpts(s), flag)
    ensures ArgsOf(Options(s, req, url), flag) == ArgsOf(CommonOpts(s), flag)
  {
    InPiece(s, req, url, flag);
  }

  lemma InNetwork(s: Settings, req: Request, url: string, flag: Flag)
    requires HasDefaults(s) && RateLimitUsable(s)
    requires PieceOf(flag) == 6
    ensures Count(Options(s, req, url), flag) == Count(NetworkOpts(s), flag)
    ensures ArgsOf(Options(s, req, url), flag) == ArgsOf(NetworkOpts(s), flag)
  {
    InPiece(s, req, url, flag);
  }

  lemma InDate(s: Settings, req: Request, url: string, flag: Flag)
    requires HasDefaults(s) && RateLimitUsable(s)
    requires PieceOf(flag) == 7
    ensures Count(Options(s, req, url), flag) == Count(DateOpts(req.dateRange), flag)
    ensures ArgsOf(Options(s, req, url), flag) == ArgsOf(DateOpts(req.dateRange), flag)
  {
    InPiece(s, req, url, flag);
  }

  lemma InPostprocessor(s: Settings, req: Request, url: string, flag: Flag)
    requires HasDefaults(s) && RateLimitUsable(s)
    requires PieceOf(flag) == 8
    ensures Count(Options(s, req, url), flag) == Count(PostprocessorOpts(req), flag)
    ensures ArgsOf(Options(s, req, url), flag) == ArgsOf(PostprocessorOpts(req), flag)
  {
    InPiece(s, req, url, flag);
  }

  function Hit(o: Opt, flag: Flag): nat {
    if o.flag == flag then 1 else 0
  }

  lemma CountCons(o: Opt, rest: seq<Opt>, flag: Flag)
    ensures Count([o] + rest, flag) == Hit(o, flag) + Count(rest, flag)
    ensures ArgsOf([o] + rest, flag) == if o.flag == flag then Some(o.args) else ArgsOf(rest, flag)
  {
    assert ([o] + rest)[1..] == rest;
  }

  lemma Count1(a: Opt, flag: Flag)
    ensures Count([a], flag) == Hit(a, flag)
    ensures ArgsOf([a], flag) == if a.flag == flag then Some(a.args) else None
  {
    CountCons(a, [], flag);
    assert [a] == [a] + [];
  }

  lemma Count2(a: Opt, b: Opt, flag: Flag)
    ensures Count([a, b], flag) == Hit(a, flag) + Hit(b, flag)
    ensures ArgsOf([a, b], flag) ==
            if a.flag == flag then Some(a.args) else if b.flag == flag then Some(b.args) else None
  {
    Count1(b, flag);
    assert [a, b] == [a] + [b];
    CountCons(a, [b], flag);
  }

  lemma Count4(a: Opt, b: Opt, c: Opt, d: Opt, flag: Flag)
    ensures Count([a, b, c, d], flag) == Hit(a, flag) + Hit(b, flag) + Hit(c, flag) + Hit(d, flag)
    ensures ArgsOf([a, b, c, d], flag) ==
            if a.flag == flag then Some(a.args) else if b.flag == flag then Some(b.args)
            else if c.flag == flag then Some(c.args) else if d.flag == flag then Some(d.args) else None
  {
    Count2(c, d, flag);
    assert [b, c, d] == [b] + [c, d];
    CountCons(b, [c, d], flag);
    assert [a, b, c, d] == [a] + [b, c, d];
    CountCons(a, [b, c, d], flag);
  }

  // ---------------------------------------------------------------------
  // What the command promises

  /** Exactly one of the two playlist flags, and `--yes-playlist` exactly
      for URLs classified as YouTube playlists. */
  lemma PlaylistFlagOnce(s: Settings, req: Request, url: string)
    requires HasDefaults(s) && RateLimitUsable(s)
    ensures var opts := Options(s, req, url);
            Count(opts, YesPlaylist) + Count(opts, NoPlaylist) == 1
    ensures Count(Options(s, req, url), YesPlaylist) == 1 <==> DetectUrlType(url) == YoutubePlaylist
  {
    InPlaylist(s, req, url, YesPlaylist);
    InPlaylist(s, req, url, NoPlaylist);
    var p := PlaylistOpts(url);
    Count1(p[0], YesPlaylist);
    Count1(p[0], NoPlaylist);
    PlaylistModeIsPlaylistTag(url);
  }

  /** One format selection, and audio is extracted exactly when the download
      is not a video download. */
  lemma ExtractAudioOnlyForAudio(s: Settings, req: Request, url: string)
    requires HasDefaults(s) && RateLimitUsable(s)
    ensures Count(Options(s, req, url), ExtractAudio) == if req.video then 0 else 1
    ensures Count(Options(s, req, url), Format) == 1
  {
    InFormat(s, req, url, ExtractAudio);
    InFormat(s, req, url, Format);
    var p := FormatOpts(req);
    if req.video {
      Count1(p[0], ExtractAudio);
      Count1(p[0], Format);
    } else {
      Count4(p[0], p[1], p[2], p[3], ExtractAudio);
      Count4(p[0], p[1], p[2], p[3], Format);
    }
  }

  /** A video download carries none of the audio-only options. */
  lemma VideoHasNoAudioOptions(s: Settings, req: Request, url: string)
    requires HasDefaults(s) && RateLimitUsable(s)
    requires req.video
    ensures var opts := Options(s, req, url);
            && Count(opts, AudioFormat) == 0
            && Count(opts, EmbedMetadata) == 0
            && Count(opts, ParseMetadata) == 0
            && Count(opts, EmbedThumbnail) == 0
            && Count(opts, PostprocessorArgs) == 0
    ensures ArgsOf(Options(s, req, url), Format) == Some(["bestvideo+bestaudio/best"])
  {
    InFormat(s, req, url, AudioFormat);
    InFormat(s, req, url, Format);
    InEmbed(s, req, url, EmbedMetadata);
    InEmbed(s, req, url, ParseMetadata);
    InThumbnail(s, req, url, EmbedThumbnail);
    InPostprocessor(s, req, url, PostprocessorArgs);
    var p := FormatOpts(req);
    Count1(p[0], AudioFormat);
    Count1(p[0], Format);
  }

  lemma AudioFormatPiece(req: Request)
    requires !req.video
    ensures ArgsOf(FormatOpts(req), Format) == Some(["bestaudio/best"])
    ensures ArgsOf(FormatOpts(req), AudioFormat) == Some([req.fmt])
    ensures ArgsOf(FormatOpts(req), AudioQuality) == Some(["0"])
  {
    var p := FormatOpts(req);
    var tail := [p[1], p[2], p[3]];
    assert p == [p[0]] + tail;
    assert tail == [p[1]] + [p[2], p[3]];
    Count2(p[2], p[3], AudioQuality);
    CountCons(p[1], [p[2], p[3]], AudioQuality);
    CountCons(p[0], tail, AudioQuality);
    Count2(p[2], p[3], AudioFormat);
    CountCons(p[1], [p[2], p[3]], AudioFormat);
    CountCons(p[0], tail, AudioFormat);
    CountCons(p[0], tail, Format);
  }

  /** An audio download asks for the best audio stream and converts it to
      the requested format at the best quality. */
  lemma AudioConversion(s: Settings, req: Request, url: string)
    requires HasDefaults(s) && RateLimitUsable(s)
    requires !req.video
    ensures var opts := Options(s, req, url);
            && ArgsOf(opts, Format) == Some(["bestaudio/best"])
            && ArgsOf(opts, AudioFormat) == Some([req.fmt])
            && ArgsOf(opts, AudioQuality) == Some(["0"])
  {
    InFormat(s, req, url, Format);
    InFormat(s, req, url, AudioFormat);
    InFormat(s, req, url, AudioQuality);
    AudioFormatPiece(req);
  }

  /** Exactly one set of encoder settings is passed, the one that matches
      the target format. */
  lemma EncoderSettings(s: Settings, req: Request, url: string)
    requires HasDefaults(s) && RateLimitUsable(s)
    ensures Count(Options(s, req, url), PostprocessorArgs) == if req.video then 0 else 1
    ensures !req.video && req.fmt == "flac" ==> ArgsOf(Options(s, req, url), PostprocessorArgs) == Some([FlacArgs])
    ensures !req.video && req.fmt == "wav" ==> ArgsOf(Options(s, req, url), PostprocessorArgs) == Some([WavArgs])
    ensures !req.video && req.fmt != "flac" && req.fmt != "wav" ==>
              ArgsOf(Options(s, req, url), PostprocessorArgs) == Some([LossyArgs])
  {
    InPostprocessor(s, req, url, PostprocessorArgs);
    if !req.video {
      Count1(PostprocessorOpts(req)[0], PostprocessorArgs);
    }
  }

  lemma CommonPiece(s: Settings)
    requires HasDefaults(s)
    ensures Count(CommonOpts(s), NoOverwrites) == 1
    ensures Count(CommonOpts(s), IgnoreErrors) == 1
    ensures ArgsOf(CommonOpts(s), Retries) == Some([PyStr(s["retries"])])
  {
    var p := CommonOpts(s);
    var tail := [p[1], p[2], p[3]];
    assert p == [p[0]] + tail;
    assert tail == [p[1]] + [p[2], p[3]];
    Count2(p[2], p[3], NoOverwrites);
    CountCons(p[1], [p[2], p[3]], NoOverwrites);
    CountCons(p[0], tail, NoOverwrites);
    Count2(p[2], p[3], IgnoreErrors);
    CountCons(p[1], [p[2], p[3]], IgnoreErrors);
    CountCons(p[0], tail, IgnoreErrors);
    Count2(p[2], p[3], Retries);
    CountCons(p[1], [p[2], p[3]], Retries);
    CountCons(p[0], tail, Retries);
  }

  /** Every command refuses to overwrite existing files and ignores
      per-item errors. */
  lemma NoOverwritesAlways(s: Settings, req: Request, url: string)
    requires HasDefaults(s) && RateLimitUsable(s)
    ensures Count(Options(s, req, url), NoOverwrites) == 1
    ensures Count(Options(s, req, url), IgnoreErrors) == 1
  {
    InCommon(s, req, url, NoOverwrites);
    InCommon(s, req, url, IgnoreErrors);
    CommonPiece(s);
  }

  /** Every command carries the configured retry count. */
  lemma RetriesFromSettings(s: Settings, req: Request, url: string)
    requires HasDefaults(s) && RateLimitUsable(s)
    ensures ArgsOf(Options(s, req, url), Retries) == Some([PyStr(s["retries"])])
  {
    InCommon(s, req, url, Retries);
    CommonPiece(s);
  }

  lemma NetworkPiece(s: Settings)
    requires RateLimitUsable(s)
    ensures Count(NetworkOpts(s), LimitRate) == if Truthy(Get(s, "rate_limit")) then 1 else 0
    ensures Truthy(Get(s, "rate_limit")) ==> ArgsOf(NetworkOpts(s), LimitRate) == Some([Get(s, "rate_limit").s])
    ensures Count(NetworkOpts(s), GeoBypass) == if Truthy(Get(s, "geo_bypass")) then 1 else 0
    ensures Count(NetworkOpts(s), PreferFreeFormats) == if Truthy(Get(s, "prefer_free_formats")) then 1 else 0
  {
    var a := if Truthy(Get(s, "rate_limit")) then [Opt(LimitRate, [Get(s, "rate_limit").s])] else [];
    var b := if Truthy(Get(s, "geo_bypass")) then [Opt(GeoBypass, [])] else [];
    var c := if Truthy(Get(s, "prefer_free_formats")) then [Opt(PreferFreeFormats, [])] else [];
    assert NetworkOpts(s) == a + b + c;
    Count3(a, b, c, LimitRate);
    Count3(a, b, c, GeoBypass);
    Count3(a, b, c, PreferFreeFormats);
    if a != [] {
      Count1(a[0], LimitRate);
      Count1(a[0], GeoBypass);
      Count1(a[0], PreferFreeFormats);
    }
    if b != [] {
      Count1(b[0], LimitRate);
      Count1(b[0], GeoBypass);
      Count1(b[0], PreferFreeFormats);
    }
    if c != [] {
      Count1(c[0], LimitRate);
      Count1(c[0], GeoBypass);
      Count1(c[0], PreferFreeFormats);
    }
  }

  lemma Count3(a: seq<Opt>, b: seq<Opt>, c: seq<Opt>, flag: Flag)
    ensures Count(a + b + c, flag) == Count(a, flag) + Count(b, flag) + Count(c, flag)
    ensures Count(a, flag) > 0 ==> ArgsOf(a + b + c, flag) == ArgsOf(a, flag)
  {
    CountAppend(a, b, flag);
    CountAppend(a + b, c, flag);
    ArgsOfAppend(a + b, c, flag);
    ArgsOfAppend(a, b, flag);
  }

  /** A rate limit is passed exactly when one is configured, with the
      configured value. */
  lemma RateLimitOption(s: Settings, req: Request, url: string)
    requires HasDefaults(s) && RateLimitUsable(s)
    ensures Count(Options(s, req, url), LimitRate) == if Truthy(Get(s, "rate_limit")) then 1 else 0
    ensures Truthy(Get(s, "rate_limit")) ==>
              ArgsOf(Options(s, req, url), LimitRate) == Some([Get(s, "rate_limit").s])
  {
    InNetwork(s, req, url, LimitRate);
    NetworkPiece(s);
  }

  /** Geo bypass and free formats appear exactly when the settings ask for them. */
  lemma NetworkSwitches(s: Settings, req: Request, url: string)
    requires HasDefaults(s) && RateLimitUsable(s)
    ensures Count(Options(s, req, url), GeoBypass) == if Truthy(Get(s, "geo_bypass")) then 1 else 0
    ensures Count(Options(s, req, url), PreferFreeFormats) ==
            if Truthy(Get(s, "prefer_free_formats")) then 1 else 0
  {
    InNetwork(s, req, url, GeoBypass);
    InNetwork(s, req, url, PreferFreeFormats);
    NetworkPiece(s);
  }

  lemma DatePiece(range: Option<(string, Option<string>)>)
    ensures Count(DateOpts(range), DateAfter) == if range.Some? then 1 else 0
    ensures range.Some? ==> ArgsOf(DateOpts(range), DateAfter) == Some([range.value.0])
    ensures Count(DateOpts(range), DateBefore) ==
            if range.Some? && range.value.1.Some? && range.value.1.value != "" then 1 else 0
    ensures range.Some? && range.value.1.Some? && range.value.1.value != "" ==>
              ArgsOf(DateOpts(range), DateBefore) == Some([range.value.1.value])
  {
    if range.Some? {
      var a := Opt(DateAfter, [range.value.0]);
      if range.value.1.Some? && range.value.1.value != "" {
        Count2(a, Opt(DateBefore, [range.value.1.value]), DateAfter);
        Count2(a, Opt(DateBefore, [range.value.1.value]), DateBefore);
      } else {
        assert DateOpts(range) == [a];
        Count1(a, DateAfter);
        Count1(a, DateBefore);
      }
    }
  }

  /** The date window: a start date whenever a range is given, an end date
      only when the range has a non-empty end. */
  lemma DateAfterOption(s: Settings, req: Request, url: string)
    requires HasDefaults(s) && RateLimitUsable(s)
    ensures var range := req.dateRange;
            Count(Options(s, req, url), DateAfter) == if range.Some? then 1 else 0
    ensures var range := req.dateRange;
            range.Some? ==> ArgsOf(Options(s, req, url), DateAfter) == Some([range.value.0])
  {
    InDate(s, req, url, DateAfter);
    DatePiece(req.dateRange);
  }

  lemma DateBeforeOption(s: Settings, req: Request, url: string)
    requires HasDefaults(s) && RateLimitUsable(s)
    ensures var range := req.dateRange;
            Count(Options(s, req, url), DateBefore) ==
            if range.Some? && range.value.1.Some? && range.value.1.value != "" then 1 else 0
    ensures var range := req.dateRange;
            range.Some? && range.value.1.Some? && range.value.1.value != "" ==>
              ArgsOf(Options(s, req, url), DateBefore) == Some([range.value.1.value])
  {
    InDate(s, req, url, DateBefore);
    DatePiece(req.dateRange);
  }

  /** Whether the source URL and the playlist URL are tagged, given that
      metadata embedding is on for this audio download. */
  lemma MetadataPiece(s: Settings, url: string, playlistUrl: Option<string>)
    ensures Count(MetadataOpts(s, url, playlistUrl), AddMetadata) ==
            if Truthy(Get(s, "embed_source_url")) then 1 else 0
    ensures Count(MetadataOpts(s, url, playlistUrl), ParseMetadata) ==
            (if Truthy(Get(s, "embed_source_url")) then 2 else 0)
            + (if playlistUrl.Some? && playlistUrl.value != "" && Truthy(Get(s, "embed_playlist_url")) then 1 else 0)
    ensures Truthy(Get(s, "embed_source_url")) ==>
              ArgsOf(MetadataOpts(s, url, playlistUrl), ParseMetadata) == Some(["url:" + url])
  {
    var a := if Truthy(Get(s, "embed_source_url"))
             then [Opt(AddMetadata, []), Opt(ParseMetadata, ["url:" + url]),
                   Opt(ParseMetadata, ["webpage_url:%(meta_url)s"])]
             else [];
    var b := if playlistUrl.Some? && playlistUrl.value != "" && Truthy(Get(s, "embed_playlist_url"))
             then [Opt(ParseMetadata, ["playlist_url:" + playlistUrl.value])]
             else [];
    assert MetadataOpts(s, url, playlistUrl) == a + b;
    CountAppend(a, b, AddMetadata);
    CountAppend(a, b, ParseMetadata);
    ArgsOfAppend(a, b, ParseMetadata);
    if a != [] {
      assert a == [a[0]] + [a[1], a[2]];
      Count2(a[1], a[2], AddMetadata);
      Count2(a[1], a[2], ParseMetadata);
      CountCons(a[0], [a[1], a[2]], AddMetadata);
      CountCons(a[0], [a[1], a[2]], ParseMetadata);
    }
    if b != [] {
      Count1(b[0], AddMetadata);
      Count1(b[0], ParseMetadata);
    }
  }

  /** The metadata options of the embedding piece. */
  lemma EmbedPiece(s: Settings, req: Request, url: string)
    ensures var on := Truthy(Get(s, "embed_metadata")) && !req.video;
            && Count(EmbedOpts(s, req, url), EmbedMetadata) == (if on then 1 else 0)
            && Count(EmbedOpts(s, req, url), AddMetadata) ==
               (if on && Truthy(Get(s, "embed_source_url")) then 1 else 0)
            && Count(EmbedOpts(s, req, url), ParseMetadata) ==
               (if on && Truthy(Get(s, "embed_source_url")) then 2 else 0)
               + (if on && PlaylistMode(url) && url != "" && Truthy(Get(s, "embed_playlist_url")) then 1 else 0)
  {
    if Truthy(Get(s, "embed_metadata")) && !req.video {
      var pl := if PlaylistMode(url) then Some(url) else None;
      var m := MetadataOpts(s, url, pl);
      MetadataPiece(s, url, pl);
      CountCons(Opt(EmbedMetadata, []), m, EmbedMetadata);
      CountCons(Opt(EmbedMetadata, []), m, AddMetadata);
      CountCons(Opt(EmbedMetadata, []), m, ParseMetadata);
      assert Count(m, EmbedMetadata) == 0 by {
        forall k | 0 <= k < |m| ensures m[k].flag != EmbedMetadata {
        }
        NotInList(m, EmbedMetadata);
      }
    }
  }

  /** Metadata is embedded only for audio downloads with embedding on. */
  lemma EmbedMetadataOption(s: Settings, req: Request, url: string)
    requires HasDefaults(s) && RateLimitUsable(s)
    ensures Count(Options(s, req, url), EmbedMetadata) ==
            if Truthy(Get(s, "embed_metadata")) && !req.video then 1 else 0
  {
    InEmbed(s, req, url, EmbedMetadata);
    EmbedPiece(s, req, url);
  }

  /** With embedding on, the source URL is tagged when that setting is on,
      and the playlist URL only in playlist mode with its own setting on. */
  lemma MetadataOptions(s: Settings, req: Request, url: string)
    requires HasDefaults(s) && RateLimitUsable(s)
    ensures var on := Truthy(Get(s, "embed_metadata")) && !req.video;
            Count(Options(s, req, url), AddMetadata) ==
            if on && Truthy(Get(s, "embed_source_url")) then 1 else 0
    ensures var on := Truthy(Get(s, "embed_metadata")) && !req.video;
            Count(Options(s, req, url), ParseMetadata) ==
            (if on && Truthy(Get(s, "embed_source_url")) then 2 else 0)
            + (if on && PlaylistMode(url) && url != "" && Truthy(Get(s, "embed_playlist_url")) then 1 else 0)
  {
    InEmbed(s, req, url, AddMetadata);
    InEmbed(s, req, url, ParseMetadata);
    EmbedPiece(s, req, url);
  }

  lemma {:induction false} NotInList(opts: seq<Opt>, flag: Flag)
    requires forall k :: 0 <= k < |opts| ==> opts[k].flag != flag
    ensures Count(opts, flag) == 0
  {
    if opts != [] {
      NotInList(opts[1..], flag);
    }
  }

  /** Thumbnails are embedded only for audio downloads with that setting on. */
  lemma ThumbnailOptions(s: Settings, req: Request, url: string)
    requires HasDefaults(s) && RateLimitUsable(s)
    ensures Count(Options(s, req, url), EmbedThumbnail) ==
            if Truthy(Get(s, "embed_thumbnail")) && !req.video then 1 else 0
  {
    InThumbnail(s, req, url, EmbedThumbnail);
    var p := ThumbnailOpts(s, req);
    if p != [] {
      Count2(p[0], p[1], EmbedThumbnail);
    }
  }

  /** The argument vector starts with the program and the playlist flag and
      ends with the URL. */
  lemma CommandShape(s: Settings, req: Request, url: string)
    requires HasDefaults(s) && RateLimitUsable(s)
    ensures var argv := Argv(Options(s, req, url), url);
            && |argv| >= 3
            && argv[0] == "yt-dlp"
            && argv[1] == (if DetectUrlType(url) == YoutubePlaylist then "--yes-playlist" else "--no-playlist")
            && argv[|argv| - 1] == url
  {
    var ps := Pieces(s, req, url);
    var n := |ps| - 1;
    assert Options(s, req, url) == Join(ps[..n]) + ps[n];
    assert ps[0] == Piece(s, req, url, 0);
    JoinStartsWith(ps);
    var opts := Options(s, req, url);
    PlaylistModeIsPlaylistTag(url);
    assert opts[0] == PlaylistOpts(url)[0];
    assert Flatten(opts) == [opts[0].flag.Text()] + opts[0].args + Flatten(opts[1..]);
  }

  /** The first option of the joined pieces is the first of the first piece. */
  lemma {:induction false} JoinStartsWith(ps: seq<seq<Opt>>)
    requires ps != [] && ps[0] != []
    ensures Join(ps) != [] && Join(ps)[0] == ps[0][0]
  {
    var n := |ps| - 1;
    if n > 0 {
      assert ps[..n][0] == ps[0];
      JoinStartsWith(ps[..n]);
    } else {
      assert ps[..n] == [];
    }
  }

  // ---------------------------------------------------------------------
  // Building the argument vector step by step, as `download` does

  lemma FlattenCons(o: Opt, rest: seq<Opt>)
    ensures Flatten([o] + rest) == [o.flag.Text()] + o.args + Flatten(rest)
  {
    assert ([o] + rest)[1..] == rest;
  }

  lemma Flatten1(a: Opt)
    ensures Flatten([a]) == [a.flag.Text()] + a.args
  {
    FlattenCons(a, []);
    assert [a] == [a] + [];
  }

  lemma Flatten2(a: Opt, b: Opt)
    ensures Flatten([a, b]) == [a.flag.Text()] + a.args + [b.flag.Text()] + b.args
  {
    Flatten1(b);
    assert [a, b] == [a] + [b];
    FlattenCons(a, [b]);
  }

  lemma Flatten3(a: Opt, b: Opt, c: Opt)
    ensures Flatten([a, b, c]) == [a.flag.Text()] + a.args + [b.flag.Text()] + b.args + [c.flag.Text()] + c.args
  {
    Flatten2(b, c);
    assert [a, b, c] == [a] + [b, c];
    FlattenCons(a, [b, c]);
  }

  lemma Flatten4(a: Opt, b: Opt, c: Opt, d: Opt)
    ensures Flatten([a, b, c, d]) ==
            [a.flag.Text()] + a.args + [b.flag.Text()] + b.args + [c.flag.Text()] + c.args
            + [d.flag.Text()] + d.args
  {
    Flatten3(b, c, d);
    assert [a, b, c, d] == [a] + [b, c, d];
    FlattenCons(a, [b, c, d]);
  }

  /** Appending a piece's strings to the vector built from some options
      gives the vector built from those options and the piece. */
  lemma Extend(opts: seq<Opt>, piece: seq<Opt>, cmd: seq<string>, added: seq<string>)
    requires cmd == ["yt-dlp"] + Flatten(opts)
    requires added == Flatten(piece)
    ensures cmd + added == ["yt-dlp"] + Flatten(opts + piece)
  {
    FlattenAppend(opts, piece);
  }

  /** The command `download` runs for `url`, appended piece by piece in the
      order of the source; it is the argument vector of the options. */
  method BuildCommand(s: Settings, req: Request, url: string) returns (cmd: seq<string>)
    requires HasDefaults(s) && RateLimitUsable(s)
    ensures cmd == Argv(Options(s, req, url), url)
  {
    cmd := ["yt-dlp"];
    var playlist := PlaylistMode(url);
    var added := PlaylistStrings(url, playlist);
    ghost var opts := PlaylistOpts(url);
    cmd := cmd + added;
    added := FormatStrings(req);
    Extend(opts, FormatOpts(req), cmd, added);
    cmd, opts := cmd + added, opts + FormatOpts(req);
    added := OutputStrings(req);
    Extend(opts, [Opt(Output, [OutputPath(req)])], cmd, added);
    cmd, opts := cmd + added, opts + [Opt(Output, [OutputPath(req)])];
    added := EmbedStrings(s, req, url, playlist);
    Extend(opts, EmbedOpts(s, req, url), cmd, added);
    cmd, opts := cmd + added, opts + EmbedOpts(s, req, url);
    added := ThumbnailStrings(s, req);
    Extend(opts, ThumbnailOpts(s, req), cmd, added);
    cmd, opts := cmd + added, opts + ThumbnailOpts(s, req);
    added := CommonStrings(s);
    Extend(opts, CommonOpts(s), cmd, added);
    cmd, opts := cmd + added, opts + CommonOpts(s);
    added := NetworkStrings(s);
    Extend(opts, NetworkOpts(s), cmd, added);
    cmd, opts := cmd + added, opts + NetworkOpts(s);
    added := DateStrings(req.dateRange);
    Extend(opts, DateOpts(req.dateRange), cmd, added);
    cmd, opts := cmd + added, opts + DateOpts(req.dateRange);
    added := PostprocessorStrings(req);
    Extend(opts, PostprocessorOpts(req), cmd, added);
    cmd, opts := cmd + added, opts + PostprocessorOpts(req);
    OptionsAreConcat(s, req, url);
    cmd := cmd + [url];
  }

  method PlaylistStrings(url: string, playlist: bool) returns (added: seq<string>)
    requires playlist == PlaylistMode(url)
    ensures added == Flatten(PlaylistOpts(url))
  {
    if playlist {
      added := ["--yes-playlist"];
    } else {
      added := ["--no-playlist"];
    }
    Flatten1(PlaylistOpts(url)[0]);
  }

  method FormatStrings(req: Request) returns (added: seq<string>)
    ensures added == Flatten(FormatOpts(req))
  {
    var p := FormatOpts(req);
    if req.video {
      added := ["-f", "bestvideo+bestaudio/best"];
      Flatten1(p[0]);
    } else {
      added := ["-f", "bestaudio/best", "--extract-audio", "--audio-format", req.fmt, "--audio-quality", "0"];
      Flatten4(p[0], p[1], p[2], p[3]);
    }
  }

  method OutputStrings(req: Request) returns (added: seq<string>)
    ensures added == Flatten([Opt(Output, [OutputPath(req)])])
  {
    var outputPath: string;
    if req.organize {
      outputPath := PathJoin(PathJoin(req.outputDir, "%(extractor)s"), req.template);
    } else {
      outputPath := PathJoin(req.outputDir, req.template);
    }
    added := ["-o", outputPath];
    Flatten1(Opt(Output, [OutputPath(req)]));
  }

  method ThumbnailStrings(s: Settings, req: Request) returns (added: seq<string>)
    ensures added == Flatten(ThumbnailOpts(s, req))
  {
    added := [];
    if Truthy(Get(s, "embed_thumbnail")) && !req.video {
      added := ["--embed-thumbnail", "--convert-thumbnails", "jpg"];
      var p := ThumbnailOpts(s, req);
      Flatten2(p[0], p[1]);
    }
  }

  method CommonStrings(s: Settings) returns (added: seq<string>)
    requires HasDefaults(s)
    ensures added == Flatten(CommonOpts(s))
  {
    added := ["--no-warnings", "--ignore-errors", "--no-overwrites", "--retries", PyStr(s["retries"])];
    var p := CommonOpts(s);
    Flatten4(p[0], p[1], p[2], p[3]);
  }

  method PostprocessorStrings(req: Request) returns (added: seq<string>)
    ensures added == Flatten(PostprocessorOpts(req))
  {
    added := [];
    if !req.video {
      if req.fmt == "flac" {
        added := ["--postprocessor-args", FlacArgs];
      } else if req.fmt == "wav" {
        added := ["--postprocessor-args", WavArgs];
      } else {
        added := ["--postprocessor-args", LossyArgs];
      }
      Flatten1(PostprocessorOpts(req)[0]);
    }
  }

  /** The metadata strings: `--embed-metadata` followed by what
      `build_metadata_args` returns. */
  method EmbedStrings(s: Settings, req: Request, url: string, playlist: bool) returns (added: seq<string>)
    requires playlist == PlaylistMode(url)
    ensures added == Flatten(EmbedOpts(s, req, url))
  {
    added := [];
    if Truthy(Get(s, "embed_metadata")) && !req.video {
      var playlistUrl := if playlist then Some(url) else None;
      var meta := MetadataStrings(s, url, playlistUrl);
      added := ["--embed-metadata"] + meta;
      assert EmbedOpts(s, req, url) == [Opt(EmbedMetadata, [])] + MetadataOpts(s, url, playlistUrl);
      FlattenCons(Opt(EmbedMetadata, []), MetadataOpts(s, url, playlistUrl));
    } else {
      assert EmbedOpts(s, req, url) == [];
    }
  }

  /** `build_metadata_args(url, playlist_url)`, extending a list. */
  method MetadataStrings(s: Settings, url: string, playlistUrl: Option<string>) returns (args: seq<string>)
    ensures args == Flatten(MetadataOpts(s, url, playlistUrl))
  {
    args := [];
    var a: seq<Opt> := [];
    if Truthy(Get(s, "embed_source_url")) {
      args := args + ["--add-metadata", "--parse-metadata", "url:" + url, "--parse-metadata", "webpage_url:%(meta_url)s"];
      a := [Opt(AddMetadata, []), Opt(ParseMetadata, ["url:" + url]), Opt(ParseMetadata, ["webpage_url:%(meta_url)s"])];
      Flatten3(a[0], a[1], a[2]);
    }
    var b: seq<Opt> := [];
    if playlistUrl.Some? && playlistUrl.value != "" && Truthy(Get(s, "embed_playlist_url")) {
      args := args + ["--parse-metadata", "playlist_url:" + playlistUrl.value];
      b := [Opt(ParseMetadata, ["playlist_url:" + playlistUrl.value])];
      Flatten1(b[0]);
    }
    assert MetadataOpts(s, url, playlistUrl) == a + b;
    FlattenAppend(a, b);
  }

  method NetworkStrings(s: Settings) returns (added: seq<string>)
    requires RateLimitUsable(s)
    ensures added == Flatten(NetworkOpts(s))
  {
    added := [];
    var a: seq<Opt> := [];
    if Truthy(Get(s, "rate_limit")) {
      added := added + ["--limit-rate", Get(s, "rate_limit").s];
      a := [Opt(LimitRate, [Get(s, "rate_limit").s])];
      Flatten1(a[0]);
    }
    assert added == Flatten(a);
    var b: seq<Opt> := [];
    ghost var before := added;
    if Truthy(Get(s, "geo_bypass")) {
      added := added + ["--geo-bypass"];
      b := [Opt(GeoBypass, [])];
      Flatten1(b[0]);
    }
    assert added == before + Flatten(b);
    var c: seq<Opt> := [];
    before := added;
    if Truthy(Get(s, "prefer_free_formats")) {
      added := added + ["--prefer-free-formats"];
      c := [Opt(PreferFreeFormats, [])];
      Flatten1(c[0]);
    }
    assert added == before + Flatten(c);
    assert NetworkOpts(s) == a + b + c;
    FlattenAppend(a, b);
    FlattenAppend(a + b, c);
  }

  method DateStrings(range: Option<(string, Option<string>)>) returns (added: seq<string>)
    ensures added == Flatten(DateOpts(range))
  {
    added := [];
    if range.Some? {
      var (after, before) := range.value;
      added := ["--dateafter", after];
      if before.Some? && before.value != "" {
        added := added + ["--datebefore", before.value];
        Flatten2(Opt(DateAfter, [after]), Opt(DateBefore, [before.value]));
      } else {
        Flatten1(Opt(DateAfter, [after]));
      }
    }
  }
}
