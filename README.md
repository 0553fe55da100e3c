# y2wav: URL ingestion, classification and command planning

This project models the core of `y2wav.py`, a command-line tool that downloads audio (or video) with yt-dlp. The model covers six parts:

- **URL normaliser.** `parse_urls` and the `parse_*` helpers turn raw sources into one ordered, duplicate-free list of URLs. A source is an existing file (JSON, CSV, M3U or plain text), a literal `http(s)://` URL, a bare domain, or free text. The three regular expressions become explicit maximal-munch scanners (module `Scanner`). The file system is a map from path to what reading that file gives.
- **Source classifier.** `detect_url_type` is a pure function. It is proved equal to a first-match-wins rule table applied to the lower-cased URL.
- **Output-template selector.** `get_output_template` maps a naming scheme to a template.
- **Archive ledger.** This is the downloader's in-memory set of downloaded URLs with three operations:
  - `load_archive` builds it from the archive file's lines;
  - `save_to_archive` adds to it and appends a line to the file;
  - `download` filters the URL list against it.
- **Command planner.** The argument vector `download` builds for one URL, together with `build_metadata_args`. It is a sequence of options stated once as a function (`Planner.Options`). A method appends the strings piece by piece, as the source does, and is proved equal to the flattened options. Lemmas state which options appear, how often, and with which arguments.
- **Configuration merge.** `Config.load` merges the defaults with the stored object. `Config.update` applies only the overrides that are not None, and does not save when a video format is passed.

`download` is modelled as a whole:
- resolving its arguments against the settings;
- the directory and format errors it can raise before the loop;
- the archive filter and the "nothing new" return;
- the loop, which runs one command per URL.

Running a command is an oracle: `outcomes[i]` is what running the i-th command does (an exit status, an exception, or a keyboard interrupt). The loop itself is a `Downloader.Run` function and a `Downloader.Downloader.RunLoop` method proved equal to it. Properties of the whole session are lemmas about `Downloader.Session`.

The model follows what `y2wav.py` does. The code has none of the following, so neither does the model:
- quality tiers (`--audio-quality` is always `0`);
- fallback plans for YouTube;
- a process timeout;
- proxy or sample-rate settings.

An interrupt is modelled where the code catches it: while a command runs, which ends the loop without counting that URL.

Modules: `Values` (setting values, JSON documents, truthiness, `str()`), `Text` (Python string operations), `Scanner` (the URL patterns), `Classify`, `Sources`, `Config`, `Planner`, `Downloader`.

## Model

| member | source | states |
|---|---|---|
| Config.Load | y2wav.py:47-56 | The loaded settings hold every default key. A stored key keeps its stored value; a default key missing from the store keeps its default; no other key appears. A missing or unreadable store gives exactly the defaults. |
| Config.ApplyEffect | y2wav.py:65-67 | After an update, every key passed with a value maps to that value. Every other key is present, and maps to its old value, exactly when it was there before. |
| Config.ApplyKeepsDefaults | y2wav.py:65-67 | An update never removes a key, so every default key stays present. |
| Config.SavedFormatStaysAudio | y2wav.py:68-72 | Whenever an update is saved, the saved format is not a video format, provided it was not one before. |
| Config.Config.constructor | y2wav.py:44-45 | A new configuration holds the settings `load` gives. |
| Config.Config.Update | y2wav.py:63-72 | The loop leaves the settings equal to the override function applied to the old ones. The result says whether `save` runs: exactly when no `format` override names a video format. |
| Classify.FirstMatch | y2wav.py:257-270 | The reference rule table: the result is the tag of the first rule whose test holds, or the fallback when no rule holds. |
| Classify.DetectIsFirstMatch | y2wav.py:253-270 | `detect_url_type` equals the first-match rule table (playlist, video, SoundCloud, Spotify, audio suffix, video suffix) on the lower-cased URL, with `generic` when nothing matches. |
| Classify.DetectCaseInsensitive | y2wav.py:255 | The tag depends only on the lower-cased URL. |
| Classify.PlaylistModeIsPlaylistTag | y2wav.py:372 | `'playlist' in url_type or '&list=' in url` holds exactly when the tag is `youtube_playlist`. |
| Classify.NameHasNoPlaylist | y2wav.py:257-270 | No tag other than `youtube_playlist` contains `playlist`. |
| Classify.FlacLinkIsDirectAudio | y2wav.py:265-266 | `https://example.com/a.flac` is classified `direct_audio`. |
| Classify.TemplateShape | y2wav.py:272-283 | An unknown scheme, and `title`, give `%(title)s.%(ext)s`. Every other known scheme gives a template ending in ` - %(title)s.%(ext)s`. |
| Classify.NumberedPadding | y2wav.py:276 | For `numbered` and a non-negative integer padding n, the index field is `%(playlist_index)0<digits of n>d`. The digits read back as n and have no leading zero unless n is 0. |
| Classify.NumberedPaddingThree | y2wav.py:276 | The default padding 3 gives `%(playlist_index)03d - %(title)s.%(ext)s`. |
| Scanner.FindAll | y2wav.py:248 | Every match `re.findall` returns is a token of the pattern and occurs in the scanned text. |
| Sources.ParseM3uFile | y2wav.py:235-243 | The line loop returns the playlist URLs of the file's lines. |
| Sources.M3uMembers | y2wav.py:239-242 | A string is in the result exactly when it is non-empty, does not start with `#`, and is the stripped form of some line. |
| Sources.M3uConcat | y2wav.py:239-242 | The result keeps file order: the URLs of two runs of lines are the URLs of the first run followed by those of the second. |
| Sources.ConcatMapMembers | y2wav.py:229-232 | A line-by-line collection contains a string exactly when some line contributes it. |
| Sources.ParseCsvFile | y2wav.py:225-233 | The row loop returns every URL-pattern match of every row, in order. |
| Sources.CsvUrlsShape | y2wav.py:231 | Every CSV URL starts with `http://` or `https://` and contains no whitespace, comma, semicolon or double quote. |
| Sources.ParseTextFile | y2wav.py:181-196 | The result is the URLs of the lines of the stripped content split at newlines. |
| Sources.ScanTextLines | y2wav.py:189-194 | The line loop skips blank lines and lines starting with `#` or `//`, and collects every pattern match of the other stripped lines in order. |
| Sources.UrlThenText | y2wav.py:190-194 | A URL at the start of a line, followed by a space and text not ending in whitespace, is found whole; the rest of the line then contributes exactly the matches it holds itself. |
| Sources.UrlWithTrailingComment | y2wav.py:190-194 | A URL followed by a space and a `#` comment yields that URL first, then exactly the URLs the comment holds itself (none for a comment without a URL). |
| Scanner.NoHeadCharNoMatch | y2wav.py:193 | A text holding neither `h` nor `w` has no URL match. |
| Sources.FirstKeyValue | y2wav.py:211-214 | The result is None exactly when the object has none of the keys. Otherwise it is the value of the first key the object has. |
| Sources.FindUrlKey | y2wav.py:211-214 | The key loop, which breaks at the first key found, returns the first present URL key's value. |
| Sources.ParseJsonList | y2wav.py:205-214 | The list loop returns each element's contribution, in order. |
| Sources.ObjectItemWithoutKey | y2wav.py:209-214 | An object element with none of `url`, `link`, `href`, `source`, `video_url` contributes nothing. |
| Sources.ObjectItemFirstKey | y2wav.py:209-214 | An object element contributes exactly the string under the first of those keys it has. |
| Sources.JsonListScenario | y2wav.py:205-214 | `[{"url": "https://a.test/1"}, "https://a.test/2"]` yields both URLs, in that order. |
| Sources.SchemeStrings | y2wav.py:219 | A string is kept exactly when it is a string element of the list that starts with `http://` or `https://`. |
| Sources.SchemeStringsAppend | y2wav.py:219 | The kept strings are in list order: those of a joined list are those of its first part followed by those of its second. |
| Sources.DictValueMembers | y2wav.py:217-221 | A value of an object contributes a URL exactly when the URL has a scheme and the value is that string or a list holding it. |
| Sources.DictUrlsMembers | y2wav.py:215-221 | The URLs of an object are exactly the URLs its member values contribute. |
| Sources.ParseJsonDict | y2wav.py:215-221 | The value loop returns, in member order, the scheme strings of list values and the string values with a scheme. |
| Sources.ParseJsonFile | y2wav.py:198-223 | The file's URLs are taken from a list or an object as above; any other document gives none. |
| Sources.WithScheme | y2wav.py:250 | Every `www.` match gets `https://` in front; every other match is kept; the length and order are preserved. |
| Sources.ParseText | y2wav.py:245-251 | Every URL found in free text has an explicit `http://` or `https://` scheme. |
| Sources.TokenHasScheme | y2wav.py:248 | A free-text match that does not start with `www.` starts with `http://` or `https://`. |
| Sources.Suffix | y2wav.py:165 | The suffix is empty, or a dot and at least one more character, with no other dot and no `/`, ending the path. |
| Sources.KindOfExtension | y2wav.py:165-175 | For a name made of a stem and a dot-free extension, in any directory, the parser is chosen by the lower-cased last extension: `json`, `csv`, `m3u`/`m3u8`, and text for anything else (so `a/B.JSON` is read as JSON). |
| Sources.KindOfNoExtension | y2wav.py:165-175 | A name with no dot after its first character is read as text: a hidden name such as `.json`, or a path like `a.b/c` whose only dot is in a directory. |
| Sources.ParseFile | y2wav.py:162-179 | The parser is chosen by the lower-cased extension (`.json`, `.csv`, `.m3u`/`.m3u8`, anything else as text). A read or decode error gives no URLs. |
| Sources.ParseUrls | y2wav.py:142-160 | The result is the deduplicated concatenation of each source's URLs, each source handled by the fixed precedence: file, literal URL, bare domain, free text. |
| Sources.Dedup | y2wav.py:160 | The result has no duplicates and contains exactly the URLs of its input. |
| Sources.DedupOrder | y2wav.py:160 | The result lists the URLs in the order of their first occurrence. |
| Sources.DedupOfDistinct | y2wav.py:160 | A list without duplicates is unchanged. |
| Sources.DedupIdempotent | y2wav.py:160 | De-duplicating twice gives the same list as de-duplicating once. |
| Sources.NonFileSourceHasScheme | y2wav.py:150-158 | Every URL from a source that is not a file has an explicit scheme. A bare domain gets `https://` after its leading slashes are dropped. |
| Planner.PathJoin | y2wav.py:393-395 | The joined path ends with the last component, and starts with the first unless the last one is absolute. |
| Planner.OptionsAreConcat | y2wav.py:368-443 | The options are the pieces in the order `download` appends them: playlist, format, output, metadata, thumbnail, common, network, dates, postprocessor. |
| Planner.BuildCommand | y2wav.py:368-443 | The command built by successive appends is `yt-dlp`, then the flattened options, then the URL. |
| Planner.MetadataStrings | y2wav.py:285-303 | `build_metadata_args` returns the flattened metadata options. |
| Planner.CommandShape | y2wav.py:368-443 | The command has at least three strings. It starts with `yt-dlp` and the playlist flag, and ends with the URL. |
| Planner.PlaylistFlagOnce | y2wav.py:371-377 | Exactly one of `--yes-playlist` and `--no-playlist` appears. `--yes-playlist` appears exactly for `youtube_playlist` URLs. |
| Planner.ExtractAudioOnlyForAudio | y2wav.py:379-389 | One `-f` option. `--extract-audio` appears once in audio mode and never in video mode. |
| Planner.VideoHasNoAudioOptions | y2wav.py:379-441 | A video download asks for `bestvideo+bestaudio/best`. It has no audio format, metadata, thumbnail or postprocessor option. |
| Planner.AudioConversion | y2wav.py:381-389 | An audio download asks for `bestaudio/best`, the requested audio format, and audio quality `0`. |
| Planner.EncoderSettings | y2wav.py:435-441 | One postprocessor option in audio mode, none in video mode. Its argument is the FLAC, WAV or lossy setting according to the format. |
| Planner.OutputOption | y2wav.py:392-397 | Exactly one `-o` option, whose argument is the resolved output path. |
| Planner.EmbedMetadataOption | y2wav.py:400-402 | `--embed-metadata` appears once exactly when metadata embedding is on and the download is audio. |
| Planner.MetadataOptions | y2wav.py:400-402 | With embedding on, the source URL is tagged when `embed_source_url` is set. The playlist URL is tagged only in playlist mode with `embed_playlist_url` set. |
| Planner.MetadataPiece | y2wav.py:285-303 | `build_metadata_args` tags the source URL (one add, two parses) exactly when `embed_source_url` is set. It tags a non-empty playlist URL exactly when `embed_playlist_url` is set. |
| Planner.ThumbnailOptions | y2wav.py:405-409 | `--embed-thumbnail` appears once exactly when thumbnail embedding is on and the download is audio. |
| Planner.NoOverwritesAlways | y2wav.py:412-417 | Every command carries `--no-overwrites` and `--ignore-errors` once. |
| Planner.RetriesFromSettings | y2wav.py:416 | The retry count is `str()` of the configured value. |
| Planner.RateLimitOption | y2wav.py:419-420 | `--limit-rate` appears once, with the configured value, exactly when a rate limit is set. |
| Planner.NetworkSwitches | y2wav.py:422-427 | `--geo-bypass` and `--prefer-free-formats` appear exactly when their settings are on. |
| Planner.DateAfterOption | y2wav.py:429-430 | `--dateafter` with the start date appears exactly when a date range is given. |
| Planner.DateBeforeOption | y2wav.py:431-432 | `--datebefore` with the end date appears exactly when the range has a non-empty end. |
| Downloader.ReadEntries | y2wav.py:126 | The loop over the archive lines yields the set of their stripped, non-blank forms. |
| Downloader.LedgerRoundTrip | y2wav.py:120-140 | The lines `save_to_archive` appends load back as exactly the set of those URLs, for URLs with no surrounding whitespace or line breaks. |
| Downloader.Resolve | y2wav.py:317-330 | The format and the output directory are the argument when it is non-empty, otherwise the setting. The template is the explicit template when non-empty, otherwise the naming scheme's template (argument or setting) with the configured padding. The organize flag is the argument when given, otherwise the setting's truth value. Video mode and the date range come from the arguments. |
| Downloader.Filter | y2wav.py:336-338 | The filter keeps exactly the URLs not in the archive and never lengthens the list. |
| Downloader.FilterAppend | y2wav.py:336-338 | The filter keeps the order, URL by URL: filtering a joined list is filtering its parts and joining the results. |
| Downloader.FilterNoneArchived | y2wav.py:336-338 | A list with no URL in the archive passes unchanged. |
| Downloader.FilterCounts | y2wav.py:338 | Every occurrence of a URL outside the archive is kept, and none of one inside it. |
| Downloader.PlannedEndsWithUrl | y2wav.py:443 | Every planned command ends with its URL. |
| Downloader.Run | y2wav.py:362-467 | Successes plus failures never exceed the URLs visited, and equal them unless interrupted. One URL is recorded per success. |
| Downloader.Succeeded | y2wav.py:449-452 | A URL is among the successes of the first n exactly when one of those n is that URL and its command started and exited with status 0. |
| Downloader.FirstStop | y2wav.py:462-464 | The index of the first started command that is interrupted, or n when there is none: no earlier command is interrupted. |
| Downloader.StepCounts | y2wav.py:447-467 | One pass: an interrupt of a started command stops the loop and counts nothing; exit status 0 is counted as a success and recorded; anything else, including a command that cannot start, is counted as a failure. |
| Downloader.RunCounts | y2wav.py:362-467 | For every list and every outcome: the recorded URLs are exactly the successes before the first interrupt, in order; the successes are as many; every other URL before it is a failure; the loop stopped exactly when such an interrupt happened. |
| Downloader.RunMembers | y2wav.py:362-452 | The loop records only URLs of its list, and every command it runs ends with one of them. |
| Downloader.RunWithoutInterrupt | y2wav.py:462-464 | Without an interrupt the loop visits every URL. |
| Downloader.StoppedStays | y2wav.py:462-464 | After the interrupt no later URL changes anything. |
| Downloader.InterruptStops | y2wav.py:462-464 | The first interrupt during a command ends the session. The URLs before it are counted once, the interrupted one is not counted, and its command was the last one run. |
| Downloader.AllSucceed | y2wav.py:449-452 | When every command exits with status 0, every URL is a success and is recorded in order. |
| Downloader.SessionAccounts | y2wav.py:305-467 | The counts of a finished session add up to the URLs to download unless interrupted. The recorded URLs are exactly as many as the successes and come from the input. |
| Downloader.SessionCounts | y2wav.py:305-467 | The session reaches its loop exactly when the directory is usable, there is something new to download and the format is usable. Then its report and recorded URLs are those of `RunCounts` over the URLs to download; otherwise nothing is run or recorded. |
| Downloader.ArchivedNotDownloaded | y2wav.py:336-338 | With the archive on, every command run is for an input URL not already in the archive. |
| Downloader.Attempt | y2wav.py:366-447 | The command tried for a URL is the planned argument vector, or nothing when a non-string rate limit makes starting it raise. |
| Downloader.Downloader.constructor | y2wav.py:87-91 | A new downloader's archive is the loaded archive file, or empty when none is configured or readable. |
| Downloader.Downloader.LoadArchive | y2wav.py:120-128 | With an archive file configured and readable, the archive becomes the file's entries; otherwise it is unchanged. |
| Downloader.Downloader.SaveToArchive | y2wav.py:130-140 | With an archive file configured, the URL joins the set and one line is appended; otherwise nothing changes. |
| Downloader.Downloader.Download | y2wav.py:305-467 | The report and the commands are those of the session. The archive gains exactly the successful URLs, and the file exactly their lines in order, when an archive file is configured. |
| Downloader.Downloader.RunLoop | y2wav.py:362-467 | The loop's counters and commands equal the loop function. The archive and file record the successes. |
| Downloader.Downloader.Visit | y2wav.py:366-464 | One loop pass is one step of the loop function, and it keeps the record of successes. |

## Left out

- Running yt-dlp (`subprocess.run`) is an oracle of outcomes, one per URL, because it is an external process. `check_dependencies` and its `sys.exit` are left out for the same reason.
- File I/O is an input: opening and reading files, `os.path.isfile` and `os.path.exists`, and JSON decoding of the configuration. A failure to create the archive's directory or to append to it is caught by the source and is not modelled: `Downloader.Downloader.written` is the lines `save_to_archive` tries to append, which is what the file gains only when every write succeeds.
- `Config.save` and `Config.display` are left out: they write a file and print.
- `Path(output_dir).mkdir` only matters by its errors, and the model keeps only the error of an output directory that is not a string.
- `print` output, the session banner and summary, the first `ERROR` line of stderr, `datetime.now`, `argparse` and `main` are left out: they only produce output.
- gui.py, colab_integration.py and processed_audio/ are not part of this model: they are a user interface, file packaging and a notebook script.
- `batch_size` is accepted by `download` and never used, so the model does not take it.
- The `output_template` setting is never read by `download`: the template is the explicit argument or the one of the naming scheme. The model follows that.
- Text.Lower: lower-cases ASCII letters only. Python's `str.lower` also maps some other characters onto ASCII letters, for example the Kelvin sign U+212A onto `k`. So a URL such as `https://x.test/a.m\u212Av` is `direct_video` in the source but `generic` in the model, and the classification of such URLs is not modelled.
- Values.Value: a setting is null, a boolean, an integer or a string. Floats, lists and objects as setting values are left out.
- Sources.ListItemUrls: a non-string value under the first URL key of a JSON object element is dropped. The source appends it as it is, and later raises on it.
- Planner.BuildCommand: requires a string rate limit whenever one is set. The command holding a non-string limit is not built, because running it raises before a process starts. Downloader.Attempt models that case as a failure with no command run.
- Downloader.Step: an interrupt is modelled only while a command runs, which is where the source catches it. An interrupt anywhere else, or an exception in `save_to_archive` after a success, is not modelled.
- Sources.UrlWithTrailingComment: stated for a comment that does not end in whitespace. Trailing whitespace is stripped from the line first, and the lemma does not describe that case.
- Classify.NumberedPadding: stated for a non-negative padding. A negative one gives its digits after a minus sign, which the template function produces but no lemma describes.
- Values.Json: an object is the dictionary `json.load` decodes, with each key once. A key repeated in the file's text, where the last value wins, is not modelled as text.
- Sources.Suffix: takes the text after the last `/` as the name. `PurePath` first drops a trailing `/` or `/.`, so `a/b.json/` has the suffix `.json` in the source and none in the model. Such a path is never an existing file, so `parse_file` is not reached for it.
