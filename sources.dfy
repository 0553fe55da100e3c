/** The URL normaliser: `parse_urls` and the `parse_*` helpers it calls turn the
    raw sources (literal URLs, bare domains, file paths, free text) into one
    ordered, duplicate-free list of URLs. The file system is a map from path
    to what reading that file gives. */
module Sources {
  import opened Text
  import opened Values
  import opened Scanner

  /** What reading one existing file gives. */
  datatype FileEntry = FileEntry(
    lenient: Option<string>,  // `open(..., errors='ignore').read()`; None when opening fails
    strict: Option<string>,   // read as strict UTF-8; None when opening or decoding fails
    json: Option<Json>)       // what `json.load` returns; None when it raises

  /** `os.path.isfile(path)` holds exactly for the paths in the map. */
  type FileSystem = map<string, FileEntry>

  // ---------------------------------------------------------------------
  // File extension: `Path(filepath).suffix.lower()`

  /** `s.rfind(c)`, -1 when `c` does not occur. */
  function LastIndexOf(s: string, c: char): (i: int)
    ensures -1 <= i < |s|
    ensures i >= 0 ==> s[i] == c
    ensures forall j :: i < j < |s| ==> s[j] != c
  {
    if s == [] then -1
    else if s[|s| - 1] == c then |s| - 1
    else LastIndexOf(s[..|s| - 1], c)
  }

  /** The last path component. */
  function BaseName(path: string): (name: string)
    ensures '/' !in name
    ensures EndsWith(path, name)
  {
    path[LastIndexOf(path, '/') + 1..]
  }

  /** `PurePath.suffix`: from the last dot, unless the dot leads the name or
      ends it. */
  function Suffix(path: string): (r: string)
    ensures r == "" || (|r| >= 2 && r[0] == '.' && '.' !in r[1..] && '/' !in r && EndsWith(path, r))
  {
    var name := BaseName(path);
    var i := LastIndexOf(name, '.');
    if 0 < i < |name| - 1 then
      assert forall c :: c in name[i..][1..] ==> c in name[i + 1..];
      name[i..]
    else ""
  }

  datatype FileKind = JsonFile | CsvFile | M3uFile | TextFile

  /** The dispatch of `parse_file` on the lower-cased extension. */
  function KindOf(path: string): FileKind {
    ExtensionKind(Lower(Suffix(path)))
  }

  /** The kind of file a lower-cased suffix selects. */
  function ExtensionKind(ext: string): FileKind {
    if ext == ".json" then JsonFile
    else if ext == ".csv" then CsvFile
    else if ext == ".m3u" || ext == ".m3u8" then M3uFile
    else TextFile
  }

  /** The base name of a path is what follows its directory part. */
  lemma BaseNameAfter(dir: string, name: string)
    requires dir == "" || dir[|dir| - 1] == '/'
    requires '/' !in name
    ensures BaseName(dir + name) == name
  {
    var path := dir + name;
    var i := LastIndexOf(path, '/');
    assert forall j :: |dir| <= j < |path| ==> path[j] == name[j - |dir|];
    if dir != "" {
      assert path[|dir| - 1] == '/';
    }
    assert i == |dir| - 1;
    assert path[|dir|..] == name;
  }

  /** A path whose last component is a stem and a dot-free extension has
      that extension as its suffix. */
  lemma SuffixOfName(path: string, stem: string, ext: string)
    requires BaseName(path) == stem + "." + ext
    requires stem != "" && ext != "" && '.' !in ext
    ensures Suffix(path) == "." + ext
  {
    LastDotOfName(stem, ext);
    SuffixOfBase(path, stem + "." + ext, |stem|);
  }

  lemma LastDotOfName(stem: string, ext: string)
    requires '.' !in ext
    ensures LastIndexOf(stem + "." + ext, '.') == |stem|
    ensures (stem + "." + ext)[|stem|..] == "." + ext
  {
    var name := stem + "." + ext;
    assert name[|stem|] == '.';
    assert forall j :: |stem| < j < |name| ==> name[j] == ext[j - |stem| - 1];
  }

  lemma SuffixOfBase(path: string, name: string, i: int)
    requires BaseName(path) == name
    requires LastIndexOf(name, '.') == i
    requires 0 < i < |name| - 1
    ensures Suffix(path) == name[i..]
  {
  }

  /** A name with no dot after its first character has no suffix: neither a
      plain name nor a hidden one such as `.json`. */
  lemma NoSuffix(dir: string, name: string)
    requires dir == "" || dir[|dir| - 1] == '/'
    requires '/' !in name
    requires name == "" || '.' !in name[1..]
    ensures Suffix(dir + name) == ""
  {
    BaseNameAfter(dir, name);
    assert forall j :: 0 < j < |name| ==> name[j] == name[1..][j - 1];
  }

  /** The dispatch on a name with a stem and an extension, in any
      directory: only the last extension of the last component counts, and
      its case is ignored. */
  lemma KindOfExtension(dir: string, stem: string, ext: string)
    requires dir == "" || dir[|dir| - 1] == '/'
    requires stem != "" && '/' !in stem
    requires ext != "" && '/' !in ext && '.' !in ext
    ensures Lower(ext) == "json" ==> KindOf(dir + stem + "." + ext) == JsonFile
    ensures Lower(ext) == "csv" ==> KindOf(dir + stem + "." + ext) == CsvFile
    ensures Lower(ext) == "m3u" || Lower(ext) == "m3u8" ==> KindOf(dir + stem + "." + ext) == M3uFile
    ensures Lower(ext) !in {"json", "csv", "m3u", "m3u8"} ==> KindOf(dir + stem + "." + ext) == TextFile
  {
    var path := dir + stem + "." + ext;
    SuffixInDirectory(dir, stem, ext);
    LowerDotted(ext);
    KindOfSuffix(path, Lower(ext));
  }

  lemma SuffixInDirectory(dir: string, stem: string, ext: string)
    requires dir == "" || dir[|dir| - 1] == '/'
    requires stem != "" && '/' !in stem
    requires ext != "" && '/' !in ext && '.' !in ext
    ensures Suffix(dir + stem + "." + ext) == "." + ext
  {
    var name := stem + "." + ext;
    var path := dir + stem + "." + ext;
    assert path == dir + name;
    assert '/' !in name by {
      assert multiset(name) == multiset(stem) + multiset{'.'} + multiset(ext);
    }
    BaseNameAfter(dir, name);
    SuffixOfName(path, stem, ext);
  }

  lemma LowerDotted(ext: string)
    ensures Lower("." + ext) == "." + Lower(ext)
  {
    LowerJoin(".", ext);
    assert Lower(".") == ".";
  }

  /** The dispatch once the lower-cased suffix is known to be a dot and `e`. */
  lemma KindOfSuffix(path: string, e: string)
    requires Lower(Suffix(path)) == "." + e
    ensures e == "json" ==> KindOf(path) == JsonFile
    ensures e == "csv" ==> KindOf(path) == CsvFile
    ensures e == "m3u" || e == "m3u8" ==> KindOf(path) == M3uFile
    ensures e !in {"json", "csv", "m3u", "m3u8"} ==> KindOf(path) == TextFile
  {
    DottedNames(e);
  }

  /** A dot followed by `e` is one of the dispatched extensions exactly when
      `e` is that extension's name. */
  lemma DottedNames(e: string)
    ensures ("." + e == ".json") == (e == "json")
    ensures ("." + e == ".csv") == (e == "csv")
    ensures ("." + e == ".m3u") == (e == "m3u")
    ensures ("." + e == ".m3u8") == (e == "m3u8")
  {
    assert ("." + e)[1..] == e;
    assert ".json"[1..] == "json" && ".csv"[1..] == "csv" && ".m3u"[1..] == "m3u" && ".m3u8"[1..] == "m3u8";
  }

  /** A name with no dot after its first character is read as text: a plain
      name, a hidden one such as `.json`, or one whose directory holds the
      only dot. */
  lemma KindOfNoExtension(dir: string, name: string)
    requires dir == "" || dir[|dir| - 1] == '/'
    requires '/' !in name
    requires name == "" || '.' !in name[1..]
    ensures KindOf(dir + name) == TextFile
  {
    var path := dir + name;
    NoSuffix(dir, name);
    KindOfNoSuffix(path);
  }

  lemma KindOfNoSuffix(path: string)
    requires Suffix(path) == ""
    ensures KindOf(path) == TextFile
  {
  }

  /** `for line in f` over a file's content, read with universal newlines. */
  function FileLines(content: string): seq<string> {
    IterLines(TranslateNewlines(content))
  }

  // ---------------------------------------------------------------------
  // Line by line

  /** The entries of each element, one element after another: a file's
      lines, or an object's members. */
  function ConcatMap<T>(f: T -> seq<string>, xs: seq<T>): seq<string> {
    if xs == [] then [] else ConcatMap(f, xs[..|xs| - 1]) + f(xs[|xs| - 1])
  }

  lemma {:induction false} ConcatMapAppend<T>(f: T -> seq<string>, a: seq<T>, b: seq<T>)
    ensures ConcatMap(f, a + b) == ConcatMap(f, a) + ConcatMap(f, b)
    decreases |b|
  {
    if b == [] {
      assert a + b == a;
    } else {
      var b' := b[..|b| - 1];
      ConcatMapAppend(f, a, b');
      assert (a + b)[..|a + b| - 1] == a + b';
      assert (a + b)[|a + b| - 1] == b[|b| - 1];
      assert ConcatMap(f, a + b) == ConcatMap(f, a + b') + f(b[|b| - 1]);
      assert ConcatMap(f, b) == ConcatMap(f, b') + f(b[|b| - 1]);
    }
  }

  /** Handling one more element appends that element's entries. */
  lemma ConcatMapSnoc<T>(f: T -> seq<string>, xs: seq<T>, x: T)
    ensures ConcatMap(f, xs + [x]) == ConcatMap(f, xs) + f(x)
  {
    assert (xs + [x])[..|xs|] == xs;
  }

  /** An entry comes from some element, and every element's entries are
      kept. */
  lemma {:induction false} ConcatMapMembers<T>(f: T -> seq<string>, xs: seq<T>, u: string)
    ensures u in ConcatMap(f, xs) <==> exists k :: 0 <= k < |xs| && u in f(xs[k])
  {
    if xs != [] {
      var init := xs[..|xs| - 1];
      ConcatMapMembers(f, init, u);
      if exists k :: 0 <= k < |init| && u in f(init[k]) {
        var k :| 0 <= k < |init| && u in f(init[k]);
        assert xs[k] == init[k];
      }
      if exists k :: 0 <= k < |xs| && u in f(xs[k]) {
        var k :| 0 <= k < |xs| && u in f(xs[k]);
        if k < |init| { assert init[k] == xs[k]; }
      }
    }
  }


  // ---------------------------------------------------------------------
  // M3U / M3U8

  /** What one playlist line contributes: its stripped form, unless that is
      empty or a `#` directive. */
  function M3uLine(line: string): seq<string> {
    var t := Strip(line);
    if t != "" && t[0] != '#' then [t] else []
  }

  function M3uUrls(lines: seq<string>): seq<string> {
    ConcatMap(M3uLine, lines)
  }

  /** `parse_m3u_file` on the file's content. */
  method ParseM3uFile(content: string) returns (urls: seq<string>)
    ensures urls == M3uUrls(FileLines(content))
  {
    var lines := FileLines(content);
    urls := [];
    var i := 0;
    while i < |lines|
      invariant 0 <= i <= |lines|
      invariant urls == M3uUrls(lines[..i])
    {
      assert lines[..i + 1] == lines[..i] + [lines[i]];
      ConcatMapSnoc(M3uLine, lines[..i], lines[i]);
      var line := Strip(lines[i]);
      if line != "" && line[0] != '#' {
        urls := urls + [line];
      }
      i := i + 1;
    }
    assert lines[..|lines|] == lines;
  }

  /** A playlist yields exactly the stripped lines that are neither blank nor
      `#` directives. */
  lemma M3uMembers(lines: seq<string>, u: string)
    ensures u in M3uUrls(lines) <==>
            u != "" && u[0] != '#' && exists k :: 0 <= k < |lines| && Strip(lines[k]) == u
  {
    ConcatMapMembers(M3uLine, lines, u);
    if u in M3uUrls(lines) {
      var k :| 0 <= k < |lines| && u in M3uLine(lines[k]);
      assert Strip(lines[k]) == u;
    }
    if u != "" && u[0] != '#' && exists k :: 0 <= k < |lines| && Strip(lines[k]) == u {
      var k :| 0 <= k < |lines| && Strip(lines[k]) == u;
      assert u in M3uLine(lines[k]);
    }
  }

  /** A playlist's URLs come in file order: the lines are handled one after
      another and each contributes its own entry. */
  lemma M3uConcat(a: seq<string>, b: seq<string>)
    ensures M3uUrls(a + b) == M3uUrls(a) + M3uUrls(b)
  {
    ConcatMapAppend(M3uLine, a, b);
  }

  // ---------------------------------------------------------------------
  // CSV

  /** What one row contributes: every URL-pattern match in it. */
  function CsvLine(line: string): seq<string> {
    FindAll(CsvUrl, line)
  }

  function CsvUrls(lines: seq<string>): seq<string> {
    ConcatMap(CsvLine, lines)
  }

  /** `parse_csv_file` on the file's content: every URL-pattern match of every
      row, no column awareness. */
  method ParseCsvFile(content: string) returns (urls: seq<string>)
    ensures urls == CsvUrls(FileLines(content))
  {
    var lines := FileLines(content);
    urls := [];
    var i := 0;
    while i < |lines|
      invariant 0 <= i <= |lines|
      invariant urls == CsvUrls(lines[..i])
    {
      assert lines[..i + 1] == lines[..i] + [lines[i]];
      ConcatMapSnoc(CsvLine, lines[..i], lines[i]);
      var found := FindAll(CsvUrl, lines[i]);
      urls := urls + found;
      i := i + 1;
    }
    assert lines[..|lines|] == lines;
  }

  /** Every CSV URL has an explicit `http://` or `https://` scheme and holds no
      whitespace, comma, semicolon or double quote. */
  lemma CsvUrlsShape(lines: seq<string>)
    ensures forall u :: u in CsvUrls(lines) ==>
              (StartsWith(u, "http://") || StartsWith(u, "https://")) && IsToken(CsvUrl, u)
  {
    forall u | u in CsvUrls(lines)
      ensures (StartsWith(u, "http://") || StartsWith(u, "https://")) && IsToken(CsvUrl, u)
    {
      ConcatMapMembers(CsvLine, lines, u);
      var k :| 0 <= k < |lines| && u in CsvLine(lines[k]);
    }
  }

  // ---------------------------------------------------------------------
  // Plain text files

  /** Blank lines and lines starting with `#` or `//` are skipped. */
  predicate Skipped(line: string) {
    line == "" || StartsWith(line, "#") || StartsWith(line, "//")
  }

  function TextLine(line: string): seq<string> {
    var t := Strip(line);
    if Skipped(t) then [] else FindAll(TextFileUrl, t)
  }

  function TextUrls(lines: seq<string>): seq<string> {
    ConcatMap(TextLine, lines)
  }

  /** The lines `parse_text_file` looks at: the stripped content split at "\n". */
  function TextFileLines(content: string): seq<string> {
    Split(Strip(TranslateNewlines(content)), '\n')
  }

  /** `parse_text_file` on the file's content. */
  method ParseTextFile(content: string) returns (urls: seq<string>)
    ensures urls == TextUrls(TextFileLines(content))
  {
    var lines := TextFileLines(content);
    urls := ScanTextLines(lines);
  }

  /** The loop of `parse_text_file` over the split lines. */
  method ScanTextLines(lines: seq<string>) returns (urls: seq<string>)
    ensures urls == TextUrls(lines)
  {
    urls := [];
    var i := 0;
    while i < |lines|
      invariant 0 <= i <= |lines|
      invariant urls == TextUrls(lines[..i])
    {
      assert lines[..i + 1] == lines[..i] + [lines[i]];
      ConcatMapSnoc(TextLine, lines[..i], lines[i]);
      var line := Strip(lines[i]);
      if line != "" && !StartsWith(line, "#") && !StartsWith(line, "//") {
        var found := FindAll(TextFileUrl, line);
        urls := urls + found;
      }
      i := i + 1;
    }
    assert lines[..|lines|] == lines;
  }

  /** A URL at the start of a line is found whole when a space and more text
      follow it; the rest of the line then contributes the URLs it holds
      itself, if any. */
  lemma UrlThenText(u: string, rest: string)
    requires IsToken(TextFileUrl, u)
    requires rest != "" && !IsSpace(rest[|rest| - 1])
    ensures TextLine(u + [' '] + rest) == [u] + FindAll(TextFileUrl, rest)
  {
    var line := u + [' '] + rest;
    UrlLineIsPlain(u, rest);
    TokenThenSeparator(TextFileUrl, u, ' ', rest);
    PlainTextLine(line);
  }

  /** A line starting with a URL and not ending in whitespace is kept as it
      is. */
  lemma UrlLineIsPlain(u: string, rest: string)
    requires IsToken(TextFileUrl, u)
    requires rest != "" && !IsSpace(rest[|rest| - 1])
    ensures Strip(u + [' '] + rest) == u + [' '] + rest && !Skipped(u + [' '] + rest)
  {
    var line := u + [' '] + rest;
    var k := HeadLen(TextFileUrl, u);
    assert u[0] == 'h' || u[0] == 'w' by {
      assert u[..k][0] == u[0];
    }
    assert line[0] == u[0];
    assert line[|line| - 1] == rest[|rest| - 1];
    StripUnchanged(line);
    assert line[..1] == [u[0]];
    assert line[..2][0] == u[0];
  }

  /** A URL followed by a space and a `#` comment yields the URL, then the
      URLs the comment holds itself, if any. */
  lemma UrlWithTrailingComment(u: string, comment: string)
    requires IsToken(TextFileUrl, u)
    requires comment == "" || !IsSpace(comment[|comment| - 1])
    ensures TextLine(u + " #" + comment) == [u] + FindAll(TextFileUrl, "#" + comment)
  {
    CommentJoin(u, comment);
    UrlThenText(u, "#" + comment);
  }

  lemma CommentJoin(u: string, comment: string)
    requires comment == "" || !IsSpace(comment[|comment| - 1])
    ensures u + " #" + comment == u + [' '] + ("#" + comment)
    ensures !IsSpace(("#" + comment)[|"#" + comment| - 1])
  {
    assert " #" == [' '] + "#";
    assert ("#" + comment)[|"#" + comment| - 1] == if comment == "" then '#' else comment[|comment| - 1];
  }

  /** A line that needs no stripping and is not skipped yields the URLs in it. */
  lemma PlainTextLine(line: string)
    requires Strip(line) == line && !Skipped(line)
    ensures TextLine(line) == FindAll(TextFileUrl, line)
  {
  }

  /** A string with no whitespace at either end is its own strip. */
  lemma StripUnchanged(s: string)
    requires s == [] || (!IsSpace(s[0]) && !IsSpace(s[|s| - 1]))
    ensures Strip(s) == s
  {
  }

  // ---------------------------------------------------------------------
  // JSON

  /** The keys tried, in order, on an object element of a JSON list. */
  const UrlKeys: seq<string> := ["url", "link", "href", "source", "video_url"]

  /** The value of the first of `keys` the object has. */
  function FirstKeyValue(members: seq<(string, Json)>, keys: seq<string>): (r: Option<Json>)
    ensures r.None? <==> forall k :: 0 <= k < |keys| ==> !HasKey(members, keys[k])
    ensures r.Some? ==>
              exists k :: 0 <= k < |keys| && HasKey(members, keys[k]) &&
                (forall j :: 0 <= j < k ==> !HasKey(members, keys[j])) &&
                r.value == Lookup(members, keys[k])
  {
    if keys == [] then None
    else if HasKey(members, keys[0]) then Some(Lookup(members, keys[0]))
    else
      var r := FirstKeyValue(members, keys[1..]);
      assert forall k :: 1 <= k < |keys| ==> keys[k] == keys[1..][k - 1];
      if r.Some? then
        var k :| 0 <= k < |keys[1..]| && HasKey(members, keys[1..][k]) &&
                 (forall j :: 0 <= j < k ==> !HasKey(members, keys[1..][j])) &&
                 r.value == Lookup(members, keys[1..][k]);
        assert HasKey(members, keys[k + 1]) && r.value == Lookup(members, keys[k + 1]);
        r
      else r
  }

  /** What one element of a top-level JSON list contributes. */
  function ListItemUrls(item: Json): seq<string> {
    match item
    case JStr(s) => [s]
    case JObj(members) =>
      (match FirstKeyValue(members, UrlKeys)
       case Some(JStr(s)) => [s]
       case _ => [])
    case _ => []
  }

  function ListUrls(items: seq<Json>): seq<string> {
    if items == [] then [] else ListUrls(items[..|items| - 1]) + ListItemUrls(items[|items| - 1])
  }

  predicate HasScheme(s: string) {
    StartsWith(s, "http://") || StartsWith(s, "https://")
  }

  /** The string elements of a JSON list that start with `http://` or
      `https://`, in list order. */
  function SchemeStrings(vs: seq<Json>): (r: seq<string>)
    ensures forall u :: u in r <==> HasScheme(u) && JStr(u) in vs
  {
    if vs == [] then []
    else
      var rest := SchemeStrings(vs[1..]);
      assert vs == [vs[0]] + vs[1..];
      match vs[0]
      case JStr(s) => if HasScheme(s) then [s] + rest else rest
      case _ => rest
  }

  /** Scheme strings are kept in list order: those of a joined list are
      those of its first part followed by those of its second. */
  lemma {:induction false} SchemeStringsAppend(a: seq<Json>, b: seq<Json>)
    ensures SchemeStrings(a + b) == SchemeStrings(a) + SchemeStrings(b)
  {
    if a == [] {
      assert a + b == b;
    } else {
      assert (a + b)[0] == a[0];
      assert (a + b)[1..] == a[1..] + b;
      SchemeStringsAppend(a[1..], b);
    }
  }

  /** What one value of a top-level JSON object contributes. */
  function DictValueUrls(v: Json): seq<string> {
    match v
    case JArr(vs) => SchemeStrings(vs)
    case JStr(s) => if HasScheme(s) then [s] else []
    case _ => []
  }

  function MemberUrls(member: (string, Json)): seq<string> {
    DictValueUrls(member.1)
  }

  function DictUrls(members: seq<(string, Json)>): seq<string> {
    ConcatMap(MemberUrls, members)
  }

  /** A value of an object contributes a URL exactly when the value is that
      URL, or a list holding it, and the URL has a scheme. */
  lemma DictValueMembers(v: Json, u: string)
    ensures u in DictValueUrls(v) <==> HasScheme(u) && (v == JStr(u) || (v.JArr? && JStr(u) in v.items))
  {
  }

  /** The URLs of an object are exactly those its values contribute. */
  lemma DictUrlsMembers(members: seq<(string, Json)>, u: string)
    ensures u in DictUrls(members) <==> exists k :: 0 <= k < |members| && u in DictValueUrls(members[k].1)
  {
    ConcatMapMembers(MemberUrls, members, u);
    assert forall k :: 0 <= k < |members| ==> MemberUrls(members[k]) == DictValueUrls(members[k].1);
  }

  function JsonUrls(doc: Json): seq<string> {
    match doc
    case JArr(items) => ListUrls(items)
    case JObj(members) => DictUrls(members)
    case _ => []
  }

  /** The inner loop of `parse_json_file` over the URL keys, which stops at
      the first key the object has. */
  method FindUrlKey(members: seq<(string, Json)>) returns (found: Option<Json>)
    ensures found == FirstKeyValue(members, UrlKeys)
  {
    var j := 0;
    found := None;
    while j < |UrlKeys|
      invariant 0 <= j <= |UrlKeys|
      invariant found.None?
      invariant FirstKeyValue(members, UrlKeys) == FirstKeyValue(members, UrlKeys[j..])
    {
      if HasKey(members, UrlKeys[j]) {
        found := Some(Lookup(members, UrlKeys[j]));
        return;
      }
      assert UrlKeys[j..][1..] == UrlKeys[j + 1..];
      j := j + 1;
    }
  }

  /** The list branch of `parse_json_file`. */
  method ParseJsonList(items: seq<Json>) returns (urls: seq<string>)
    ensures urls == ListUrls(items)
  {
    urls := [];
    var i := 0;
    while i < |items|
      invariant 0 <= i <= |items|
      invariant urls == ListUrls(items[..i])
    {
      assert items[..i + 1][..i] == items[..i];
      assert ListUrls(items[..i + 1]) == urls + ListItemUrls(items[i]);
      match items[i] {
        case JStr(s) =>
          urls := urls + [s];
        case JObj(members) =>
          var found := FindUrlKey(members);
          if found.Some? && found.value.JStr? {
            urls := urls + [found.value.s];
          }
        case _ =>
      }
      i := i + 1;
    }
    assert items[..|items|] == items;
  }

  /** The object branch of `parse_json_file`. */
  method ParseJsonDict(members: seq<(string, Json)>) returns (urls: seq<string>)
    ensures urls == DictUrls(members)
  {
    urls := [];
    var i := 0;
    while i < |members|
      invariant 0 <= i <= |members|
      invariant urls == DictUrls(members[..i])
    {
      assert members[..i + 1] == members[..i] + [members[i]];
      ConcatMapSnoc(MemberUrls, members[..i], members[i]);
      match members[i].1 {
        case JArr(vs) =>
          urls := urls + SchemeStrings(vs);
        case JStr(s) =>
          if HasScheme(s) {
            urls := urls + [s];
          }
        case _ =>
      }
      i := i + 1;
    }
    assert members[..|members|] == members;
  }

  /** `parse_json_file` on the decoded document. */
  method ParseJsonFile(doc: Json) returns (urls: seq<string>)
    ensures urls == JsonUrls(doc)
  {
    match doc {
      case JArr(items) => urls := ParseJsonList(items);
      case JObj(members) => urls := ParseJsonDict(members);
      case _ => urls := [];
    }
  }

  /** An object element with none of the URL keys contributes nothing. */
  lemma ObjectItemWithoutKey(members: seq<(string, Json)>)
    requires forall k :: 0 <= k < |UrlKeys| ==> !HasKey(members, UrlKeys[k])
    ensures ListItemUrls(JObj(members)) == []
  {
  }

  /** An object element contributes the string under the first URL key it
      has, and nothing else. */
  lemma ObjectItemFirstKey(members: seq<(string, Json)>, k: nat, s: string)
    requires k < |UrlKeys| && HasKey(members, UrlKeys[k])
    requires forall j :: 0 <= j < k ==> !HasKey(members, UrlKeys[j])
    requires Lookup(members, UrlKeys[k]) == JStr(s)
    ensures ListItemUrls(JObj(members)) == [s]
  {
    var r := FirstKeyValue(members, UrlKeys);
    var k' :| 0 <= k' < |UrlKeys| && HasKey(members, UrlKeys[k']) &&
              (forall j :: 0 <= j < k' ==> !HasKey(members, UrlKeys[j])) &&
              r.value == Lookup(members, UrlKeys[k']);
    assert k' == k;
  }

  /** The list `[{"url": "https://a.test/1"}, "https://a.test/2"]` yields both
      URLs, in that order. */
  lemma JsonListScenario()
    ensures JsonUrls(JArr([JObj([("url", JStr("https://a.test/1"))]), JStr("https://a.test/2")]))
            == ["https://a.test/1", "https://a.test/2"]
  {
    var m := [("url", JStr("https://a.test/1"))];
    assert HasKey(m, UrlKeys[0]) by { assert m[0].0 == "url"; }
    assert Lookup(m, "url") == JStr("https://a.test/1");
    assert FirstKeyValue(m, UrlKeys) == Some(JStr("https://a.test/1"));
    assert ListItemUrls(JObj(m)) == ["https://a.test/1"];
    var items := [JObj(m), JStr("https://a.test/2")];
    assert items[..1] == [JObj(m)];
    assert [JObj(m)][..0] == [];
    assert ListUrls([JObj(m)]) == ["https://a.test/1"];
    assert ListUrls(items) == ListUrls(items[..1]) + ListItemUrls(items[1]);
  }

  // ---------------------------------------------------------------------
  // Free text

  /** The `www.` matches get an `https://` scheme. */
  function WithScheme(found: seq<string>): (r: seq<string>)
    ensures |r| == |found|
    ensures forall k :: 0 <= k < |found| ==>
              r[k] == (if StartsWith(found[k], "www.") then "https://" + found[k] else found[k])
  {
    if found == [] then []
    else [if StartsWith(found[0], "www.") then "https://" + found[0] else found[0]] + WithScheme(found[1..])
  }

  /** `parse_text`: every URL found in free text carries an explicit scheme. */
  function ParseText(text: string): (r: seq<string>)
    ensures forall u :: u in r ==> HasScheme(u)
  {
    var found := FindAll(FreeTextUrl, text);
    var r := WithScheme(found);
    forall k | 0 <= k < |r| ensures HasScheme(r[k]) {
      assert IsToken(FreeTextUrl, found[k]) by { assert found[k] in found; }
      if StartsWith(found[k], "www.") {
        assert ("https://" + found[k])[..8] == "https://";
      } else {
        TokenHasScheme(found[k]);
      }
    }
    r
  }

  /** A free-text token without the `www.` head has an `http(s)://` head. */
  lemma TokenHasScheme(u: string)
    requires IsToken(FreeTextUrl, u)
    requires !StartsWith(u, "www.")
    ensures HasScheme(u)
  {
  }

  // ---------------------------------------------------------------------
  // parse_file and parse_urls

  /** What `parse_file` returns for an existing file: the URLs of the parser
      its extension selects, nothing when reading or decoding raises. */
  function FileUrls(path: string, entry: FileEntry): seq<string> {
    match KindOf(path)
    case JsonFile => if entry.json.Some? then JsonUrls(entry.json.value) else []
    case CsvFile => if entry.strict.Some? then CsvUrls(FileLines(entry.strict.value)) else []
    case M3uFile => if entry.strict.Some? then M3uUrls(FileLines(entry.strict.value)) else []
    case TextFile => if entry.lenient.Some? then TextUrls(TextFileLines(entry.lenient.value)) else []
  }

  /** `parse_file`. */
  method ParseFile(path: string, entry: FileEntry) returns (urls: seq<string>)
    ensures urls == FileUrls(path, entry)
  {
    urls := [];
    var kind := KindOf(path);
    match kind {
      case JsonFile =>
        if entry.json.Some? {
          urls := ParseJsonFile(entry.json.value);
        }
      case CsvFile =>
        if entry.strict.Some? {
          urls := ParseCsvFile(entry.strict.value);
        }
      case M3uFile =>
        if entry.strict.Some? {
          urls := ParseM3uFile(entry.strict.value);
        }
      case TextFile =>
        if entry.lenient.Some? {
          urls := ParseTextFile(entry.lenient.value);
        }
    }
  }

  /** `re.match(r'www\.', source) or '.' in source and '/' in source`. */
  predicate LooksLikeDomain(source: string) {
    StartsWith(source, "www.") || ('.' in source && '/' in source)
  }

  /** How one source is read, by the fixed precedence of `parse_urls`: an
      existing file is parsed; an `http(s)://` string is kept verbatim; a bare
      domain gets `https://` after its leading slashes are dropped; anything
      else is scanned as free text. */
  function SourceUrls(fs: FileSystem, source: string): seq<string> {
    if source in fs then FileUrls(source, fs[source])
    else if HasScheme(source) then [source]
    else if LooksLikeDomain(source) then ["https://" + LStripChar(source, '/')]
    else ParseText(source)
  }

  function CollectUrls(fs: FileSystem, sources: seq<string>): seq<string> {
    if sources == [] then []
    else CollectUrls(fs, sources[..|sources| - 1]) + SourceUrls(fs, sources[|sources| - 1])
  }

  predicate NoDuplicates(s: seq<string>) {
    forall i, j :: 0 <= i < j < |s| ==> s[i] != s[j]
  }

  /** `list(dict.fromkeys(urls))`: each URL once, at its first occurrence. */
  function Dedup(s: seq<string>): (r: seq<string>)
    ensures NoDuplicates(r)
    ensures forall x :: x in r <==> x in s
  {
    if s == [] then []
    else
      var d := Dedup(s[..|s| - 1]);
      var x := s[|s| - 1];
      assert forall y :: y in s <==> y in s[..|s| - 1] || y == x by {
        assert s == s[..|s| - 1] + [x];
      }
      if x in d then d else d + [x]
  }

  /** `parse_urls`. */
  method ParseUrls(fs: FileSystem, sources: seq<string>) returns (result: seq<string>)
    ensures result == Dedup(CollectUrls(fs, sources))
  {
    var urls: seq<string> := [];
    var i := 0;
    while i < |sources|
      invariant 0 <= i <= |sources|
      invariant urls == CollectUrls(fs, sources[..i])
    {
      assert sources[..i + 1][..i] == sources[..i];
      var source := sources[i];
      if source in fs {
        var found := ParseFile(source, fs[source]);
        urls := urls + found;
      } else if StartsWith(source, "http://") || StartsWith(source, "https://") {
        urls := urls + [source];
      } else if StartsWith(source, "www.") || ('.' in source && '/' in source) {
        urls := urls + ["https://" + LStripChar(source, '/')];
      } else {
        urls := urls + ParseText(source);
      }
      i := i + 1;
    }
    assert sources[..|sources|] == sources;
    result := Dedup(urls);
  }

  // ---------------------------------------------------------------------
  // Properties of the result order

  /** The position of the first occurrence of `x`. */
  function FirstIndex(s: seq<string>, x: string): (i: nat)
    requires x in s
    ensures i < |s| && s[i] == x
    ensures forall j :: 0 <= j < i ==> s[j] != x
  {
    if s[0] == x then 0 else 1 + FirstIndex(s[1..], x)
  }

  lemma {:induction false} FirstIndexAppend(s: seq<string>, y: string, x: string)
    requires x in s
    ensures FirstIndex(s + [y], x) == FirstIndex(s, x)
  {
    var i := FirstIndex(s, x);
    assert (s + [y])[i] == x;
  }

  /** The deduplicated list keeps the URLs in the order of their first
      occurrence. */
  lemma {:induction false} DedupOrder(s: seq<string>)
    ensures forall i, j :: 0 <= i < j < |Dedup(s)| ==> FirstIndex(s, Dedup(s)[i]) < FirstIndex(s, Dedup(s)[j])
  {
    if s != [] {
      var init := s[..|s| - 1];
      var x := s[|s| - 1];
      DedupOrder(init);
      var d := Dedup(init);
      assert s == init + [x];
      forall y | y in init ensures FirstIndex(s, y) == FirstIndex(init, y) {
        FirstIndexAppend(init, x, y);
      }
      if x !in d {
        var r := d + [x];
        assert x !in init;
        assert FirstIndex(s, x) == |init| by {
          assert s[|init|] == x;
          forall j | 0 <= j < |init| ensures s[j] != x {
            assert s[j] == init[j];
          }
        }
        forall i, j | 0 <= i < j < |r| ensures FirstIndex(s, r[i]) < FirstIndex(s, r[j]) {
          assert r[i] == d[i] && r[i] in init;
          if j < |d| {
            assert r[j] == d[j] && r[j] in init;
          } else {
            assert r[j] == x;
          }
        }
      } else {
        forall i, j | 0 <= i < j < |d| ensures FirstIndex(s, d[i]) < FirstIndex(s, d[j]) {
          assert d[i] in init && d[j] in init;
        }
      }
    }
  }

  /** A list without duplicates is left as it is. */
  lemma {:induction false} DedupOfDistinct(s: seq<string>)
    requires NoDuplicates(s)
    ensures Dedup(s) == s
  {
    if s != [] {
      var init := s[..|s| - 1];
      assert NoDuplicates(init) by {
        forall i, j | 0 <= i < j < |init| ensures init[i] != init[j] {
          assert init[i] == s[i] && init[j] == s[j];
        }
      }
      DedupOfDistinct(init);
      assert s[|s| - 1] !in init by {
        forall i | 0 <= i < |init| ensures init[i] != s[|s| - 1] {
          assert init[i] == s[i];
        }
      }
      assert init + [s[|s| - 1]] == s;
    }
  }

  /** Normalising is idempotent: deduplicating twice is deduplicating once. */
  lemma DedupIdempotent(s: seq<string>)
    ensures Dedup(Dedup(s)) == Dedup(s)
  {
    DedupOfDistinct(Dedup(s));
  }

  /** A URL that did not come from a file always carries an explicit scheme:
      literal URLs have one, bare domains get `https://`, and free-text
      matches are given one. */
  lemma NonFileSourceHasScheme(fs: FileSystem, source: string)
    requires source !in fs
    ensures forall u :: u in SourceUrls(fs, source) ==> HasScheme(u)
  {
    if !HasScheme(source) && LooksLikeDomain(source) {
      var u := "https://" + LStripChar(source, '/');
      assert u[..8] == "https://";
    }
  }
}
