/** The source classifier (`detect_url_type`) and the output-template
    selector (`get_output_template`). */
module Classify {
  import opened Text
  import opened Values

  /** The type tags `detect_url_type` returns. */
  datatype UrlType =
    | YoutubePlaylist | YoutubeVideo | SoundCloud | Spotify
    | DirectAudio | DirectVideo | Generic
  {
    /** The tag string the source uses. */
    function Name(): string {
      match this
      case YoutubePlaylist => "youtube_playlist"
      case YoutubeVideo => "youtube_video"
      case SoundCloud => "soundcloud"
      case Spotify => "spotify"
      case DirectAudio => "direct_audio"
      case DirectVideo => "direct_video"
      case Generic => "generic"
    }
  }

  const AudioExtensions: seq<string> := [".mp3", ".flac", ".wav", ".m4a", ".ogg", ".opus", ".aac"]
  const VideoExtensions: seq<string> := [".mp4", ".mkv", ".webm", ".avi", ".mov"]

  predicate ContainsAny(s: string, ps: seq<string>) {
    exists k :: 0 <= k < |ps| && Contains(s, ps[k])
  }

  /** `s.endswith(tuple)`. */
  predicate EndsWithAny(s: string, ps: seq<string>) {
    exists k :: 0 <= k < |ps| && EndsWith(s, ps[k])
  }

  /** `detect_url_type`: the tests, in order, on the lower-cased URL. */
  function DetectUrlType(url: string): UrlType {
    var l := Lower(url);
    if Contains(l, "youtube.com/playlist") || Contains(l, "youtu.be/playlist") || Contains(l, "&list=") then YoutubePlaylist
    else if Contains(l, "youtube.com") || Contains(l, "youtu.be") then YoutubeVideo
    else if Contains(l, "soundcloud.com") then SoundCloud
    else if Contains(l, "spotify.com") then Spotify
    else if EndsWithAny(l, AudioExtensions) then DirectAudio
    else if EndsWithAny(l, VideoExtensions) then DirectVideo
    else Generic
  }

  // ---------------------------------------------------------------------
  // A table-driven reference definition: a list of rules, the first whose
  // test holds of the lower-cased URL decides the tag.

  datatype Test = AnyInfix(infixes: seq<string>) | AnySuffix(suffixes: seq<string>)
  datatype Rule = Rule(test: Test, tag: UrlType)

  predicate Holds(t: Test, s: string) {
    match t
    case AnyInfix(ps) => ContainsAny(s, ps)
    case AnySuffix(ps) => EndsWithAny(s, ps)
  }

  const Rules: seq<Rule> := [
    Rule(AnyInfix(["youtube.com/playlist", "youtu.be/playlist", "&list="]), YoutubePlaylist),
    Rule(AnyInfix(["youtube.com", "youtu.be"]), YoutubeVideo),
    Rule(AnyInfix(["soundcloud.com"]), SoundCloud),
    Rule(AnyInfix(["spotify.com"]), Spotify),
    Rule(AnySuffix(AudioExtensions), DirectAudio),
    Rule(AnySuffix(VideoExtensions), DirectVideo)
  ]

  /** The tag of the first rule whose test holds, `fallback` when none does. */
  function FirstMatch(rules: seq<Rule>, s: string, fallback: UrlType): (t: UrlType)
    ensures t == fallback || exists k :: 0 <= k < |rules| && rules[k].tag == t
    ensures (forall k :: 0 <= k < |rules| ==> !Holds(rules[k].test, s)) ==> t == fallback
    ensures forall k :: 0 <= k < |rules| && Holds(rules[k].test, s) &&
              (forall j :: 0 <= j < k ==> !Holds(rules[j].test, s))
              ==> t == rules[k].tag
  {
    if rules == [] then fallback
    else if Holds(rules[0].test, s) then rules[0].tag
    else
      var t := FirstMatch(rules[1..], s, fallback);
      assert forall k :: 1 <= k < |rules| ==> rules[k] == rules[1..][k - 1];
      t
  }

  lemma ContainsAnyOne(s: string, p: string)
    ensures ContainsAny(s, [p]) <==> Contains(s, p)
  {
    if Contains(s, p) { assert [p][0] == p; }
  }

  lemma ContainsAnyTwo(s: string, p: string, q: string)
    ensures ContainsAny(s, [p, q]) <==> Contains(s, p) || Contains(s, q)
  {
    if Contains(s, p) { assert [p, q][0] == p; }
    if Contains(s, q) { assert [p, q][1] == q; }
  }

  lemma ContainsAnyThree(s: string, p: string, q: string, r: string)
    ensures ContainsAny(s, [p, q, r]) <==> Contains(s, p) || Contains(s, q) || Contains(s, r)
  {
    if Contains(s, p) { assert [p, q, r][0] == p; }
    if Contains(s, q) { assert [p, q, r][1] == q; }
    if Contains(s, r) { assert [p, q, r][2] == r; }
  }

  /** `detect_url_type` is the first-match-wins rule table, applied to the
      lower-cased URL, with `generic` when no rule matches. */
  lemma DetectIsFirstMatch(url: string)
    ensures DetectUrlType(url) == FirstMatch(Rules, Lower(url), Generic)
  {
    var l := Lower(url);
    ContainsAnyThree(l, "youtube.com/playlist", "youtu.be/playlist", "&list=");
    ContainsAnyTwo(l, "youtube.com", "youtu.be");
    ContainsAnyOne(l, "soundcloud.com");
    ContainsAnyOne(l, "spotify.com");
    var r := Rules;
    assert FirstMatch(r[5..], l, Generic) == if Holds(r[5].test, l) then DirectVideo else Generic by {
      assert r[5..][1..] == [];
    }
    assert FirstMatch(r[4..], l, Generic) == if Holds(r[4].test, l) then DirectAudio else FirstMatch(r[5..], l, Generic) by {
      assert r[4..][1..] == r[5..];
    }
    assert FirstMatch(r[3..], l, Generic) == if Holds(r[3].test, l) then Spotify else FirstMatch(r[4..], l, Generic) by {
      assert r[3..][1..] == r[4..];
    }
    assert FirstMatch(r[2..], l, Generic) == if Holds(r[2].test, l) then SoundCloud else FirstMatch(r[3..], l, Generic) by {
      assert r[2..][1..] == r[3..];
    }
    assert FirstMatch(r[1..], l, Generic) == if Holds(r[1].test, l) then YoutubeVideo else FirstMatch(r[2..], l, Generic) by {
      assert r[1..][1..] == r[2..];
    }
  }

  /** Classification sees the URL only through its lower-cased form. */
  lemma DetectCaseInsensitive(url: string)
    ensures DetectUrlType(Lower(url)) == DetectUrlType(url)
  {
    LowerIdempotent(url);
  }

  /** Playlist handling in `download` asks for `'playlist' in url_type or
      '&list=' in url`; that holds exactly for the `youtube_playlist` tag,
      because a case-sensitive `&list=` also occurs in the lower-cased URL. */
  lemma PlaylistModeIsPlaylistTag(url: string)
    ensures (Contains(DetectUrlType(url).Name(), "playlist") || Contains(url, "&list="))
            <==> DetectUrlType(url) == YoutubePlaylist
  {
    var t := DetectUrlType(url);
    if Contains(url, "&list=") {
      assert Lower("&list=") == "&list=";
      ContainsLower(url, "&list=");
    }
    if t == YoutubePlaylist {
      assert InfixAt(t.Name(), "playlist", 8);
    } else {
      NameHasNoPlaylist(t);
    }
  }

  /** No tag but `youtube_playlist` has `playlist` in its name. */
  lemma NameHasNoPlaylist(t: UrlType)
    requires t != YoutubePlaylist
    ensures !Contains(t.Name(), "playlist")
  {
    var n := t.Name();
    forall i: nat | i <= |n| ensures !InfixAt(n, "playlist", i) {
      if i + 8 <= |n| {
        assert n[i..i + 8][0] == n[i];
        assert n[i..i + 8][1] == n[i + 1];
        assert n[i..i + 8][4] == n[i + 4];
      }
    }
  }

  /** A pattern holding a character the string lacks does not occur in it. */
  lemma AbsentChar(s: string, p: string, c: char)
    requires c in p && c !in s
    ensures !Contains(s, p)
  {
    var j :| 0 <= j < |p| && p[j] == c;
    forall i: nat | i <= |s| ensures !InfixAt(s, p, i) {
      if i + |p| <= |s| {
        assert s[i..i + |p|][j] == s[i + j];
      }
    }
  }

  lemma LowerOfLowerCase(s: string)
    requires forall k :: 0 <= k < |s| ==> !('A' <= s[k] <= 'Z')
    ensures Lower(s) == s
  {
  }

  /** The characters `https://example.com/a.flac` lacks. */
  lemma FlacLinkChars(l: string)
    requires l == "https://example.com/a.flac"
    ensures 'y' !in l && '&' !in l && 'u' !in l && 'i' !in l
  {
  }

  /** No host or query test of `detect_url_type` holds of `https://example.com/a.flac`. */
  lemma FlacLinkInfixes(l: string)
    requires 'y' !in l && '&' !in l && 'u' !in l && 'i' !in l
    ensures !Contains(l, "youtube.com/playlist") && !Contains(l, "youtu.be/playlist") && !Contains(l, "&list=")
    ensures !Contains(l, "youtube.com") && !Contains(l, "youtu.be")
    ensures !Contains(l, "soundcloud.com") && !Contains(l, "spotify.com")
  {
    AbsentChar(l, "youtube.com/playlist", 'y');
    AbsentChar(l, "youtu.be/playlist", 'y');
    AbsentChar(l, "&list=", '&');
    AbsentChar(l, "youtube.com", 'y');
    AbsentChar(l, "youtu.be", 'y');
    AbsentChar(l, "soundcloud.com", 'u');
    AbsentChar(l, "spotify.com", 'i');
  }

  /** A direct link to a FLAC file on an ordinary host is `direct_audio`. */
  lemma FlacLinkIsDirectAudio()
    ensures DetectUrlType("https://example.com/a" + ".flac") == DirectAudio
  {
    var u := "https://example.com/a" + ".flac";
    assert Lower(u) == u by {
      assert u == "https://example.com/a.flac";
      LowerOfLowerCase(u);
    }
    FlacLinkChars(u);
    FlacLinkInfixes(u);
    EndsWithConcat("https://example.com/a", ".flac");
    assert EndsWith(u, AudioExtensions[1]);
  }

  // ---------------------------------------------------------------------
  // Output templates

  const DefaultTemplate: string := "%(title)s.%(ext)s"
  const TitleTail: string := " - %(title)s.%(ext)s"

  /** `get_output_template`: the template of a known naming scheme, the
      title-only template otherwise; `numbered` carries the padding in its
      `%(playlist_index)0<padding>d` field. */
  function OutputTemplate(scheme: string, padding: Value): (t: string) {
    if scheme == "title" then DefaultTemplate
    else if scheme == "numbered" then "%(playlist_index)0" + PyStr(padding) + "d" + TitleTail
    else if scheme == "artist-title" then "%(artist)s" + TitleTail
    else if scheme == "album-track" then "%(album)s/%(track_number)s" + TitleTail
    else if scheme == "date-title" then "%(upload_date)s" + TitleTail
    else if scheme == "id-title" then "%(id)s" + TitleTail
    else if scheme == "uploader-title" then "%(uploader)s" + TitleTail
    else DefaultTemplate
  }

  const KnownSchemes: set<string> :=
    {"title", "numbered", "artist-title", "album-track", "date-title", "id-title", "uploader-title"}

  lemma EndsWithConcat(head: string, tail: string)
    ensures EndsWith(head + tail, tail)
  {
    assert (head + tail)[|head + tail| - |tail|..] == tail;
  }

  /** Every template names the file after the title and lets the downloader
      supply the extension; a scheme that is not one of the seven (and the
      `title` scheme itself) gets the plain-title template, every other known
      scheme puts its fields before ` - %(title)s.%(ext)s`. */
  lemma TemplateShape(scheme: string, padding: Value)
    ensures scheme !in KnownSchemes || scheme == "title" ==> OutputTemplate(scheme, padding) == DefaultTemplate
    ensures scheme in KnownSchemes && scheme != "title" ==>
              EndsWith(OutputTemplate(scheme, padding), TitleTail)
  {
    var tail := TitleTail;
    if scheme == "numbered" {
      EndsWithConcat("%(playlist_index)0" + PyStr(padding) + "d", tail);
    } else if scheme == "artist-title" {
      EndsWithConcat("%(artist)s", tail);
    } else if scheme == "album-track" {
      EndsWithConcat("%(album)s/%(track_number)s", tail);
    } else if scheme == "date-title" {
      EndsWithConcat("%(upload_date)s", tail);
    } else if scheme == "id-title" {
      EndsWithConcat("%(id)s", tail);
    } else if scheme == "uploader-title" {
      EndsWithConcat("%(uploader)s", tail);
    }
  }

  /** For `numbered` with a non-negative integer padding `n`, the index field
      is the zero-flag conversion `%0<n>d`, whose width digits read back as `n`. */
  lemma {:induction false} NumberedPadding(n: nat)
    ensures var t := OutputTemplate("numbered", Int(n));
            var w := NatDigits(n);
            && t == "%(playlist_index)0" + w + "d" + TitleTail
            && DigitsValue(w) == n
            && (w[0] == '0' ==> n == 0)
  {
    NatDigitsRoundTrip(n);
  }

  /** The scenario: padding 3 gives `%(playlist_index)03d`. */
  lemma NumberedPaddingThree()
    ensures OutputTemplate("numbered", Int(3)) == "%(playlist_index)03d" + TitleTail
  {
    assert NatDigits(3) == "3";
  }
}
