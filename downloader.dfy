/** The download session: the archive ledger of downloaded URLs
    (`load_archive`, `save_to_archive`), the resolution of the arguments of
    `download` against the settings, the archive filter, and the loop that
    runs one command per URL and counts successes and failures.  Running a
    command is an oracle: `outcomes[i]` is what running the command for the
    i-th URL to download does. */
module Downloader {
  import opened Text
  import opened Values
  import Config
  import opened Classify
  import opened Planner
  import Sources

  // ---------------------------------------------------------------------
  // The archive ledger

  /** The URLs an archive file lists: its lines stripped, blank ones left out. */
  function Entries(lines: seq<string>): set<string> {
    set k | 0 <= k < |lines| && Strip(lines[k]) != "" :: Strip(lines[k])
  }

  /** Reading one more line adds its stripped form, unless it is blank. */
  lemma EntriesSnoc(lines: seq<string>, i: nat)
    requires i < |lines|
    ensures Entries(lines[..i + 1]) == Entries(lines[..i]) + (if Strip(lines[i]) != "" then {Strip(lines[i])} else {})
  {
    var a, b := lines[..i + 1], lines[..i];
    forall u | u in Entries(a) ensures u in Entries(b) || (Strip(lines[i]) != "" && u == Strip(lines[i])) {
      var k :| 0 <= k < |a| && Strip(a[k]) != "" && Strip(a[k]) == u;
      if k < i {
        assert a[k] == b[k];
      }
    }
    forall u | u in Entries(b) ensures u in Entries(a) {
      var k :| 0 <= k < |b| && Strip(b[k]) != "" && Strip(b[k]) == u;
      assert a[k] == b[k];
    }
    if Strip(lines[i]) != "" {
      assert a[i] == lines[i];
    }
  }

  /** The text `save_to_archive` appends for the URLs, in order: one line
      per URL. */
  function Ledger(urls: seq<string>): string {
    if urls == [] then "" else urls[0] + "\n" + Ledger(urls[1..])
  }

  /** A URL that survives a trip through one line of the archive file. */
  predicate LedgerSafe(u: string) {
    u != [] && !IsSpace(u[0]) && !IsSpace(u[|u| - 1]) && '\n' !in u && '\r' !in u
  }

  lemma StripLine(u: string)
    requires LedgerSafe(u)
    ensures Strip(u + "\n") == u
  {
    var s := u + "\n";
    assert s[0] == u[0];
    assert LStrip(s) == s;
    assert s[..|s| - 1] == u;
    assert RStrip(s) == RStrip(u);
    assert RStrip(u) == u;
  }

  lemma {:induction false} LedgerShape(urls: seq<string>)
    requires forall k :: 0 <= k < |urls| ==> LedgerSafe(urls[k])
    ensures '\r' !in Ledger(urls)
    ensures IterLines(Ledger(urls)) == seq(|urls|, k requires 0 <= k < |urls| => urls[k] + "\n")
  {
    if urls != [] {
      var tail := urls[1..];
      assert forall k :: 0 <= k < |tail| ==> tail[k] == urls[k + 1];
      LedgerShape(tail);
      var u := urls[0];
      IterLinesPrefix(u, Ledger(tail));
      var want := seq(|urls|, k requires 0 <= k < |urls| => urls[k] + "\n");
      assert want == [u + "\n"] + seq(|tail|, k requires 0 <= k < |tail| => tail[k] + "\n");
      assert '\r' !in u + "\n";
    }
  }

  /** Reading a ledger back gives one line per URL. */
  lemma LedgerLines(urls: seq<string>)
    requires forall k :: 0 <= k < |urls| ==> LedgerSafe(urls[k])
    ensures var lines := Sources.FileLines(Ledger(urls));
            |lines| == |urls| && forall k :: 0 <= k < |urls| ==> lines[k] == urls[k] + "\n"
  {
    LedgerShape(urls);
    TranslateNoCarriageReturn(Ledger(urls));
  }

  /** What `save_to_archive` writes, `load_archive` reads back: a ledger of
      URLs without surrounding whitespace or line breaks loads as exactly the
      set of those URLs. */
  lemma LedgerRoundTrip(urls: seq<string>)
    requires forall k :: 0 <= k < |urls| ==> LedgerSafe(urls[k])
    ensures Entries(Sources.FileLines(Ledger(urls))) == set k | 0 <= k < |urls| :: urls[k]
  {
    var lines := Sources.FileLines(Ledger(urls));
    LedgerLines(urls);
    forall k | 0 <= k < |urls| ensures Strip(lines[k]) == urls[k] {
      StripLine(urls[k]);
    }
    EntriesOfStripped(lines, urls);
  }

  /** Lines that strip to non-empty URLs list exactly those URLs. */
  lemma EntriesOfStripped(lines: seq<string>, urls: seq<string>)
    requires |lines| == |urls|
    requires forall k :: 0 <= k < |urls| ==> Strip(lines[k]) == urls[k] && urls[k] != ""
    ensures Entries(lines) == set k | 0 <= k < |urls| :: urls[k]
  {
    var want := set k | 0 <= k < |urls| :: urls[k];
    forall u | u in want ensures u in Entries(lines) {
      var k :| 0 <= k < |urls| && urls[k] == u;
      assert Strip(lines[k]) == u;
    }
    forall u | u in Entries(lines) ensures u in want {
      var k :| 0 <= k < |lines| && Strip(lines[k]) != "" && Strip(lines[k]) == u;
      assert urls[k] == u;
    }
  }

  // ---------------------------------------------------------------------
  // Resolving the arguments of `download`

  /** The arguments of one `download` call; None is Python's None. */
  datatype DownloadArgs = DownloadArgs(
    fmt: Option<string>,
    outputDir: Option<string>,
    outputTemplate: Option<string>,
    organize: Option<bool>,
    video: bool,
    namingScheme: Option<string>,
    dateRange: Option<(string, Option<string>)>,
    skipArchive: bool)

  /** `arg or fallback` for an optional string argument. */
  function Or(arg: Option<string>, fallback: Value): (v: Value)
    ensures arg.Some? && arg.value != "" ==> v == Str(arg.value)
    ensures (arg.None? || arg.value == "") ==> v == fallback
  {
    if arg.Some? && arg.value != "" then Str(arg.value) else fallback
  }

  /** The naming scheme as `get_output_template` compares it: a value that is
      not a string matches no scheme, like the empty string. */
  function SchemeName(v: Value): string {
    if v.Str? then v.s else ""
  }

  /** The output template `download` uses: the explicit one, else the one of
      the naming scheme. */
  function Template(s: Settings, args: DownloadArgs): string
    requires Config.HasDefaults(s)
  {
    if args.outputTemplate.Some? && args.outputTemplate.value != "" then args.outputTemplate.value
    else OutputTemplate(SchemeName(Or(args.namingScheme, s["naming_scheme"])), s["number_padding"])
  }

  /** The request a successful resolution yields; it needs the output
      directory to be a string (creating it fails otherwise). */
  function Resolve(s: Settings, args: DownloadArgs): (req: Request)
    requires Config.HasDefaults(s)
    requires Or(args.outputDir, s["output_dir"]).Str?
    ensures req.video == args.video && req.dateRange == args.dateRange
    ensures args.outputDir.Some? && args.outputDir.value != "" ==> req.outputDir == args.outputDir.value
    ensures (args.outputDir.None? || args.outputDir.value == "") ==> req.outputDir == s["output_dir"].s
    ensures args.fmt.Some? && args.fmt.value != "" ==> req.fmt == args.fmt.value
    ensures (args.fmt.None? || args.fmt.value == "") && s["format"].Str? ==> req.fmt == s["format"].s
    ensures args.outputTemplate.Some? && args.outputTemplate.value != "" ==> req.template == args.outputTemplate.value
    ensures (args.outputTemplate.None? || args.outputTemplate.value == "") ==>
              req.template == OutputTemplate(SchemeName(Or(args.namingScheme, s["naming_scheme"])), s["number_padding"])
    ensures args.organize.Some? ==> req.organize == args.organize.value
    ensures args.organize.None? ==> req.organize == Truthy(s["organize_by_source"])
  {
    var fmt := Or(args.fmt, s["format"]);
    Request(
      if fmt.Str? then fmt.s else "",
      Or(args.outputDir, s["output_dir"]).s,
      Template(s, args),
      if args.organize.Some? then args.organize.value else Truthy(s["organize_by_source"]),
      args.video,
      args.dateRange)
  }

  /** The URLs not in the archive, in their order. */
  function Filter(urls: seq<string>, archive: set<string>): (r: seq<string>)
    ensures |r| <= |urls|
    ensures forall u :: u in r <==> u in urls && u !in archive
  {
    if urls == [] then []
    else (if urls[0] in archive then [] else [urls[0]]) + Filter(urls[1..], archive)
  }

  /** The filter works URL by URL and keeps the order: filtering a list is
      filtering its two halves and joining the results. */
  lemma {:induction false} FilterAppend(a: seq<string>, b: seq<string>, archive: set<string>)
    ensures Filter(a + b, archive) == Filter(a, archive) + Filter(b, archive)
  {
    if a != [] {
      assert (a + b)[0] == a[0];
      assert (a + b)[1..] == a[1..] + b;
      FilterAppend(a[1..], b, archive);
    } else {
      assert a + b == b;
    }
  }

  /** A list with nothing in the archive passes the filter unchanged. */
  lemma {:induction false} FilterNoneArchived(urls: seq<string>, archive: set<string>)
    requires forall k :: 0 <= k < |urls| ==> urls[k] !in archive
    ensures Filter(urls, archive) == urls
  {
    if urls != [] {
      FilterNoneArchived(urls[1..], archive);
    }
  }

  /** The filter keeps every occurrence of a URL outside the archive, so
      duplicates in the list are downloaded as often as they occur. */
  lemma {:induction false} FilterCounts(urls: seq<string>, archive: set<string>, u: string)
    ensures multiset(Filter(urls, archive))[u] == if u in archive then 0 else multiset(urls)[u]
  {
    if urls != [] {
      FilterCounts(urls[1..], archive, u);
      assert urls == [urls[0]] + urls[1..];
      assert multiset(urls) == multiset{urls[0]} + multiset(urls[1..]);
    }
  }

  // ---------------------------------------------------------------------
  // The session

  /** What running one command does. */
  datatype Outcome = Exit(code: int) | Raised | Interrupted

  /** What `download` reports: it raised before the loop, found nothing new,
      or ran the loop (stopped early by an interrupt or not). */
  datatype Report = Crashed | NothingNew | Finished(success: nat, fail: nat, interrupted: bool)

  /** The counters and effects of the loop after some URLs. */
  datatype Tally = Tally(success: nat, fail: nat, stopped: bool, commands: seq<seq<string>>, saved: seq<string>)

  /** What the loop body tries to run for a URL: the planned command, or None
      when running it raises before a process starts (a rate limit that is
      not a string is not a valid argument). */
  type Plan = string -> Option<seq<string>>

  function PlanFor(s: Settings, req: Request, url: string): Option<seq<string>>
    requires Config.HasDefaults(s)
  {
    if RateLimitUsable(s) then Some(Argv(Options(s, req, url), url)) else None
  }

  function Planned(s: Settings, req: Request): Plan
    requires Config.HasDefaults(s)
  {
    url => PlanFor(s, req, url)
  }

  /** Every planned command ends with the URL it is for. */
  ghost predicate EndsWithUrl(plan: Plan) {
    forall u :: plan(u).Some? ==> |plan(u).value| >= 1 && plan(u).value[|plan(u).value| - 1] == u
  }

  lemma PlannedEndsWithUrl(s: Settings, req: Request)
    requires Config.HasDefaults(s)
    ensures EndsWithUrl(Planned(s, req))
  {
    forall u | Planned(s, req)(u).Some?
      ensures |Planned(s, req)(u).value| >= 1 && Planned(s, req)(u).value[|Planned(s, req)(u).value| - 1] == u
    {
      CommandShape(s, req, u);
    }
  }

  /** One iteration for `url`: a command that cannot start counts as a
      failure; an interrupt stops the loop without counting; exit status 0
      is a success and records the URL; any other status or exception is a
      failure. */
  function Step(t: Tally, cmd: Option<seq<string>>, url: string, outcome: Outcome): Tally {
    if cmd.None? then t.(fail := t.fail + 1)
    else
      var commands := t.commands + [cmd.value];
      match outcome
      case Interrupted => t.(stopped := true, commands := commands)
      case Raised => t.(fail := t.fail + 1, commands := commands)
      case Exit(code) =>
        if code == 0 then t.(success := t.success + 1, commands := commands, saved := t.saved + [url])
        else t.(fail := t.fail + 1, commands := commands)
  }

  /** The loop over the first `n` URLs; an interrupt ends it. */
  function Run(plan: Plan, urls: seq<string>, outcomes: seq<Outcome>, n: nat): (t: Tally)
    requires n <= |urls| <= |outcomes|
    ensures t.success + t.fail <= n
    ensures !t.stopped ==> t.success + t.fail == n
    ensures |t.saved| == t.success
    ensures |t.commands| <= n
  {
    if n == 0 then Tally(0, 0, false, [], [])
    else
      var t := Run(plan, urls, outcomes, n - 1);
      if t.stopped then t else Step(t, plan(urls[n - 1]), urls[n - 1], outcomes[n - 1])
  }

  /** The loop runs and records only URLs of its list. */
  lemma RunMembers(plan: Plan, urls: seq<string>, outcomes: seq<Outcome>, n: nat)
    requires EndsWithUrl(plan)
    requires n <= |urls| <= |outcomes|
    ensures var t := Run(plan, urls, outcomes, n);
            && (forall k :: 0 <= k < |t.saved| ==> t.saved[k] in urls[..n])
            && (forall c :: c in t.commands ==> c != [] && c[|c| - 1] in urls[..n])
  {
    RunSavedMembers(plan, urls, outcomes, n);
    RunCommandMembers(plan, urls, outcomes, n);
  }

  lemma {:induction false} RunSavedMembers(plan: Plan, urls: seq<string>, outcomes: seq<Outcome>, n: nat)
    requires n <= |urls| <= |outcomes|
    ensures var t := Run(plan, urls, outcomes, n);
            forall k :: 0 <= k < |t.saved| ==> t.saved[k] in urls[..n]
  {
    if n > 0 {
      RunSavedMembers(plan, urls, outcomes, n - 1);
      var t := Run(plan, urls, outcomes, n - 1);
      // The induction hypothesis, for the tally of the shorter run.
      assert var t0 := Run(plan, urls, outcomes, n - 1); forall k :: 0 <= k < |t0.saved| ==> t0.saved[k] in urls[..n - 1];
      var t' := Run(plan, urls, outcomes, n);
      var url := urls[n - 1];
      assert urls[..n] == urls[..n - 1] + [url];
      if !t.stopped {
        StepGrows(t, plan(url), url, outcomes[n - 1]);
      }
      forall k | 0 <= k < |t'.saved| ensures t'.saved[k] in urls[..n] {
        if k < |t.saved| {
          assert t'.saved[k] == t.saved[k] && t.saved[k] in urls[..n - 1];
        } else {
          assert t'.saved[k] == url;
        }
      }
    }
  }

  lemma {:induction false} RunCommandMembers(plan: Plan, urls: seq<string>, outcomes: seq<Outcome>, n: nat)
    requires EndsWithUrl(plan)
    requires n <= |urls| <= |outcomes|
    ensures var t := Run(plan, urls, outcomes, n);
            forall c :: c in t.commands ==> c != [] && c[|c| - 1] in urls[..n]
  {
    if n > 0 {
      RunCommandMembers(plan, urls, outcomes, n - 1);
      var t := Run(plan, urls, outcomes, n - 1);
      var t' := Run(plan, urls, outcomes, n);
      var url := urls[n - 1];
      assert urls[..n] == urls[..n - 1] + [url];
      if !t.stopped {
        StepGrows(t, plan(url), url, outcomes[n - 1]);
        forall c | c in t'.commands ensures c != [] && c[|c| - 1] in urls[..n] {
          if c !in t.commands { assert c == plan(url).value; }
        }
      }
    }
  }

  /** One iteration adds at most its own URL to the saved ones and at most
      its own command to the commands run. */
  lemma StepGrows(t: Tally, cmd: Option<seq<string>>, url: string, outcome: Outcome)
    ensures var t' := Step(t, cmd, url, outcome);
            && (t'.saved == t.saved || t'.saved == t.saved + [url])
            && (t'.commands == t.commands || (cmd.Some? && t'.commands == t.commands + [cmd.value]))
  {
  }

  /** Without an interrupt the loop never stops early. */
  lemma {:induction false} RunWithoutInterrupt(plan: Plan, urls: seq<string>, outcomes: seq<Outcome>, n: nat)
    requires n <= |urls| <= |outcomes|
    requires forall k :: 0 <= k < n ==> outcomes[k] != Interrupted
    ensures !Run(plan, urls, outcomes, n).stopped
  {
    if n > 0 {
      RunWithoutInterrupt(plan, urls, outcomes, n - 1);
    }
  }

  /** Once the loop has stopped, later URLs change nothing. */
  lemma {:induction false} StoppedStays(plan: Plan, urls: seq<string>, outcomes: seq<Outcome>, i: nat, n: nat)
    requires i <= n <= |urls| <= |outcomes|
    requires Run(plan, urls, outcomes, i).stopped
    ensures Run(plan, urls, outcomes, n) == Run(plan, urls, outcomes, i)
    decreases n - i
  {
    if i < n {
      StoppedStays(plan, urls, outcomes, i, n - 1);
    }
  }

  /** The first interrupt of a command that started ends the session: the
      URLs before it are each counted once, the interrupted one is not, and
      no later URL is run. */
  lemma InterruptStops(plan: Plan, urls: seq<string>, outcomes: seq<Outcome>, j: nat, n: nat)
    requires j < n <= |urls| <= |outcomes|
    requires plan(urls[j]).Some? && outcomes[j] == Interrupted
    requires forall k :: 0 <= k < j ==> outcomes[k] != Interrupted
    ensures var t := Run(plan, urls, outcomes, n);
            && t == Run(plan, urls, outcomes, j + 1)
            && t.stopped
            && t.success + t.fail == j
            && t.commands == Run(plan, urls, outcomes, j).commands + [plan(urls[j]).value]
  {
    RunWithoutInterrupt(plan, urls, outcomes, j);
    StoppedStays(plan, urls, outcomes, j + 1, n);
  }

  /** When every command starts and exits with status 0, every URL is a
      success and is recorded, in order. */
  lemma {:induction false} AllSucceed(plan: Plan, urls: seq<string>, outcomes: seq<Outcome>, n: nat)
    requires n <= |urls| <= |outcomes|
    requires forall k :: 0 <= k < n ==> plan(urls[k]).Some? && outcomes[k] == Exit(0)
    ensures var t := Run(plan, urls, outcomes, n);
            && t.success == n && t.fail == 0 && !t.stopped
            && t.saved == urls[..n]
            && |t.commands| == n
  {
    if n > 0 {
      AllSucceed(plan, urls, outcomes, n - 1);
      assert urls[..n] == urls[..n - 1] + [urls[n - 1]];
    }
  }

  /** A URL whose command started and exited with status 0. */
  predicate Succeeds(plan: Plan, url: string, outcome: Outcome) {
    plan(url).Some? && outcome == Exit(0)
  }

  /** A URL whose command started and was interrupted. */
  predicate Stops(plan: Plan, url: string, outcome: Outcome) {
    plan(url).Some? && outcome == Interrupted
  }

  /** The URLs among the first `n` that succeed, in their order. */
  function Succeeded(plan: Plan, urls: seq<string>, outcomes: seq<Outcome>, n: nat): (r: seq<string>)
    requires n <= |urls| <= |outcomes|
    ensures |r| <= n
    ensures forall u :: u in r <==> exists k :: 0 <= k < n && urls[k] == u && Succeeds(plan, urls[k], outcomes[k])
  {
    if n == 0 then []
    else
      var r := Succeeded(plan, urls, outcomes, n - 1);
      if Succeeds(plan, urls[n - 1], outcomes[n - 1]) then r + [urls[n - 1]] else r
  }

  /** The index of the first of the first `n` URLs that stops the loop, or
      `n` when none does. */
  function FirstStop(plan: Plan, urls: seq<string>, outcomes: seq<Outcome>, n: nat): (m: nat)
    requires n <= |urls| <= |outcomes|
    ensures m <= n
    ensures forall k :: 0 <= k < m ==> !Stops(plan, urls[k], outcomes[k])
    ensures m < n ==> Stops(plan, urls[m], outcomes[m])
  {
    if n == 0 then 0
    else
      var m := FirstStop(plan, urls, outcomes, n - 1);
      if m < n - 1 then m
      else if Stops(plan, urls[n - 1], outcomes[n - 1]) then n - 1
      else n
  }

  /** What the loop reports, for every list and every outcome: up to the
      first interrupt of a started command, the URLs that succeed are
      recorded in order and counted as successes, every other URL is counted
      as a failure, and the loop has stopped exactly when such an interrupt
      happened. */
  lemma {:induction false} RunCounts(plan: Plan, urls: seq<string>, outcomes: seq<Outcome>, n: nat)
    requires n <= |urls| <= |outcomes|
    ensures var t := Run(plan, urls, outcomes, n);
            var m := FirstStop(plan, urls, outcomes, n);
            && t.saved == Succeeded(plan, urls, outcomes, m)
            && t.success == |t.saved|
            && t.fail == m - t.success
            && t.stopped == (m < n)
  {
    if n > 0 {
      RunCounts(plan, urls, outcomes, n - 1);
      var t := Run(plan, urls, outcomes, n - 1);
      var m := FirstStop(plan, urls, outcomes, n - 1);
      // The induction hypothesis, for the shorter run.
      assert t.saved == Succeeded(plan, urls, outcomes, m) && t.fail == m - t.success && t.stopped == (m < n - 1);
      if m == n - 1 {
        var url := urls[n - 1];
        StepCounts(t, plan(url), url, outcomes[n - 1]);
        if Stops(plan, url, outcomes[n - 1]) {
          assert FirstStop(plan, urls, outcomes, n) == n - 1;
        } else {
          assert FirstStop(plan, urls, outcomes, n) == n;
        }
      }
    }
  }

  /** One iteration of a loop that has not stopped: an interrupt of a
      started command stops it and counts nothing; a success is counted and
      recorded; anything else is counted as a failure. */
  lemma StepCounts(t: Tally, cmd: Option<seq<string>>, url: string, outcome: Outcome)
    ensures var t' := Step(t, cmd, url, outcome);
            && (cmd.Some? && outcome == Interrupted ==>
                  t'.stopped && t'.saved == t.saved && t'.success == t.success && t'.fail == t.fail)
            && (cmd.Some? && outcome == Exit(0) ==>
                  t'.stopped == t.stopped && t'.saved == t.saved + [url] && t'.success == t.success + 1 && t'.fail == t.fail)
            && (!(cmd.Some? && (outcome == Interrupted || outcome == Exit(0))) ==>
                  t'.stopped == t.stopped && t'.saved == t.saved && t'.success == t.success && t'.fail == t.fail + 1)
  {
  }

  /** The URLs the loop runs over. */
  function ToDownload(s: Settings, archive: set<string>, args: DownloadArgs, urls: seq<string>): seq<string> {
    if !args.skipArchive && Truthy(Get(s, "archive_file")) then Filter(urls, archive) else urls
  }

  /** Creating the output directory raises unless it is a string. */
  predicate DirUsable(s: Settings, args: DownloadArgs)
    requires Config.HasDefaults(s)
  {
    Or(args.outputDir, s["output_dir"]).Str?
  }

  /** Printing the format in upper case raises unless, in audio mode, it is a
      string. */
  predicate FormatUsable(s: Settings, args: DownloadArgs)
    requires Config.HasDefaults(s)
  {
    args.video || Or(args.fmt, s["format"]).Str?
  }

  /** The whole of `download`: its report, and the commands it runs and the
      URLs it records as downloaded. */
  function Session(s: Settings, archive: set<string>, args: DownloadArgs, urls: seq<string>, outcomes: seq<Outcome>): (Report, Tally)
    requires Config.HasDefaults(s)
    requires |urls| <= |outcomes|
  {
    if !DirUsable(s, args) then (Crashed, Tally(0, 0, false, [], []))
    else
      var todo := ToDownload(s, archive, args, urls);
      if todo == [] then (NothingNew, Tally(0, 0, false, [], []))
      else if !FormatUsable(s, args) then (Crashed, Tally(0, 0, false, [], []))
      else
        var t := Run(Planned(s, Resolve(s, args)), todo, outcomes, |todo|);
        (Finished(t.success, t.fail, t.stopped), t)
  }

  /** Every URL to download is counted once unless an interrupt ends the
      loop; the recorded URLs are successes and come from the list. */
  lemma SessionAccounts(s: Settings, archive: set<string>, args: DownloadArgs, urls: seq<string>, outcomes: seq<Outcome>)
    requires Config.HasDefaults(s)
    requires |urls| <= |outcomes|
    ensures var (report, t) := Session(s, archive, args, urls, outcomes);
            var todo := ToDownload(s, archive, args, urls);
            && (report.Finished? ==> report.success + report.fail <= |todo| &&
                                     (!report.interrupted ==> report.success + report.fail == |todo|))
            && (forall k :: 0 <= k < |t.saved| ==> t.saved[k] in urls)
            && |t.saved| == (if report.Finished? then report.success else 0)
  {
    var todo := ToDownload(s, archive, args, urls);
    var (report, t) := Session(s, archive, args, urls, outcomes);
    if report.Finished? {
      var req := Resolve(s, args);
      PlannedEndsWithUrl(s, req);
      RunMembers(Planned(s, req), todo, outcomes, |todo|);
      assert todo[..|todo|] == todo;
      forall k | 0 <= k < |t.saved| ensures t.saved[k] in urls {
        assert t.saved[k] in todo;
      }
    }
  }

  /** When `download` reaches its loop, and only then, its report gives, for
      every list and every outcome, the counts and the recorded URLs of the
      loop over the URLs to download; otherwise it runs and records nothing. */
  lemma SessionCounts(s: Settings, archive: set<string>, args: DownloadArgs, urls: seq<string>, outcomes: seq<Outcome>)
    requires Config.HasDefaults(s)
    requires |urls| <= |outcomes|
    ensures var (report, t) := Session(s, archive, args, urls, outcomes);
            var todo := ToDownload(s, archive, args, urls);
            && (report.Finished? <==> DirUsable(s, args) && todo != [] && FormatUsable(s, args))
            && (report.Finished? ==>
                  && DirUsable(s, args)
                  && var plan := Planned(s, Resolve(s, args));
                     var m := FirstStop(plan, todo, outcomes, |todo|);
                     && t.saved == Succeeded(plan, todo, outcomes, m)
                     && report.success == |t.saved|
                     && report.fail == m - report.success
                     && report.interrupted == (m < |todo|))
            && (!report.Finished? ==> t.saved == [] && t.commands == [])
  {
    var todo := ToDownload(s, archive, args, urls);
    if DirUsable(s, args) && todo != [] && FormatUsable(s, args) {
      RunCounts(Planned(s, Resolve(s, args)), todo, outcomes, |todo|);
    }
  }

  /** With the archive on, no command is run for a URL already in it. */
  lemma ArchivedNotDownloaded(s: Settings, archive: set<string>, args: DownloadArgs, urls: seq<string>, outcomes: seq<Outcome>)
    requires Config.HasDefaults(s)
    requires |urls| <= |outcomes|
    requires !args.skipArchive && Truthy(Get(s, "archive_file"))
    ensures var t := Session(s, archive, args, urls, outcomes).1;
            forall c :: c in t.commands ==> c != [] && c[|c| - 1] in urls && c[|c| - 1] !in archive
  {
    var todo := ToDownload(s, archive, args, urls);
    var t := Session(s, archive, args, urls, outcomes).1;
    if t.commands != [] {
      var req := Resolve(s, args);
      PlannedEndsWithUrl(s, req);
      RunMembers(Planned(s, req), todo, outcomes, |todo|);
      assert todo[..|todo|] == todo;
    }
  }

  /** The loop of `load_archive` over the lines of the file. */
  method ReadEntries(lines: seq<string>) returns (loaded: set<string>)
    ensures loaded == Entries(lines)
  {
    loaded := {};
    var i := 0;
    while i < |lines|
      invariant 0 <= i <= |lines|
      invariant loaded == Entries(lines[..i])
    {
      var url := Strip(lines[i]);
      EntriesSnoc(lines, i);
      if url != "" {
        loaded := loaded + {url};
      }
      i := i + 1;
    }
    assert lines[..|lines|] == lines;
  }

  /** The URLs of a list, as a set. */
  function SetOf(xs: seq<string>): (r: set<string>)
    ensures forall u :: u in r <==> u in xs
  {
    set u | u in xs
  }

  lemma SetOfSnoc(xs: seq<string>, u: string)
    ensures SetOf(xs + [u]) == SetOf(xs) + {u}
  {
  }

  // ---------------------------------------------------------------------
  // The downloader object

  class Downloader {
    const config: Config.Config
    /** The set of downloaded URLs held in memory. */
    var archive: set<string>
    /** The lines `save_to_archive` tries to append to the archive file
        during this run, in order (a failed write is not modelled, so this is
        also what the file gains when every write succeeds). */
    var written: seq<string>

    /** `Downloader(config)`: starts with an empty archive and loads the
        archive file, whose text is `archiveText` (None when it is missing
        or unreadable). */
    constructor (config: Config.Config, archiveText: Option<string>)
      requires config.Valid()
      ensures this.config == config
      ensures archive == (if Truthy(Get(config.settings, "archive_file")) && archiveText.Some?
                          then Entries(Sources.FileLines(archiveText.value)) else {})
      ensures written == []
    {
      this.config := config;
      archive := {};
      written := [];
      new;
      LoadArchive(archiveText);
    }

    /** `load_archive`: with an archive file configured and readable, the
        archive becomes the stripped non-blank lines of the file. */
    method LoadArchive(archiveText: Option<string>)
      modifies this
      ensures archive == (if Truthy(Get(config.settings, "archive_file")) && archiveText.Some?
                          then Entries(Sources.FileLines(archiveText.value)) else old(archive))
      ensures written == old(written)
    {
      if Truthy(Get(config.settings, "archive_file")) && archiveText.Some? {
        archive := ReadEntries(Sources.FileLines(archiveText.value));
      }
    }

    /** `save_to_archive`: with an archive file configured, the URL joins the
        archive and a line is appended to the file. */
    method SaveToArchive(url: string)
      modifies this
      ensures Truthy(Get(config.settings, "archive_file")) ==>
                archive == old(archive) + {url} && written == old(written) + [url]
      ensures !Truthy(Get(config.settings, "archive_file")) ==>
                archive == old(archive) && written == old(written)
    {
      if Truthy(Get(config.settings, "archive_file")) {
        archive := archive + {url};
        written := written + [url];
      }
    }

    /** `download(urls, ...)`: runs the session and records what succeeded. */
    method Download(args: DownloadArgs, urls: seq<string>, outcomes: seq<Outcome>)
      returns (report: Report, commands: seq<seq<string>>)
      requires config.Valid()
      requires |urls| <= |outcomes|
      modifies this
      ensures var (rep, t) := Session(config.settings, old(archive), args, urls, outcomes);
              && report == rep && commands == t.commands
              && (Truthy(Get(config.settings, "archive_file")) ==>
                    archive == old(archive) + SetOf(t.saved) &&
                    written == old(written) + t.saved)
              && (!Truthy(Get(config.settings, "archive_file")) ==>
                    archive == old(archive) && written == old(written))
    {
      var s := config.settings;
      commands := [];
      if !DirUsable(s, args) {
        report := Crashed;
        return;
      }
      var todo := urls;
      if !args.skipArchive && Truthy(Get(s, "archive_file")) {
        todo := Filter(urls, archive);
      }
      if todo == [] {
        report := NothingNew;
        return;
      }
      if !FormatUsable(s, args) {
        report := Crashed;
        return;
      }
      var req := Resolve(s, args);
      var success, fail, stopped;
      ghost var saved;
      success, fail, stopped, commands, saved := RunLoop(Planned(s, req), s, req, todo, outcomes);
      report := Finished(success, fail, stopped);
    }

    /** The loop of `download` over the URLs to download. */
    method RunLoop(ghost plan: Plan, s: Settings, req: Request, todo: seq<string>, outcomes: seq<Outcome>)
      returns (success: nat, fail: nat, stopped: bool, commands: seq<seq<string>>, ghost saved: seq<string>)
      requires Config.HasDefaults(s) && config.settings == s
      requires |todo| <= |outcomes|
      requires forall u {:trigger PlanFor(s, req, u)} :: plan(u) == PlanFor(s, req, u)
      modifies this
      ensures Run(plan, todo, outcomes, |todo|) == Tally(success, fail, stopped, commands, saved)
      ensures Truthy(Get(s, "archive_file")) ==>
                archive == old(archive) + SetOf(saved) && written == old(written) + saved
      ensures !Truthy(Get(s, "archive_file")) ==> archive == old(archive) && written == old(written)
    {
      var t := Tally(0, 0, false, [], []);
      var i := 0;
      while i < |todo| && !t.stopped
        invariant 0 <= i <= |todo|
        invariant config.settings == s
        invariant Run(plan, todo, outcomes, i) == t
        invariant Recorded(old(archive), old(written), t.saved)
        invariant t.stopped ==> Run(plan, todo, outcomes, |todo|) == Run(plan, todo, outcomes, i)
      {
        t := Visit(plan, s, req, old(archive), old(written), t, todo[i], outcomes[i]);
        i := i + 1;
        if t.stopped {
          StoppedStays(plan, todo, outcomes, i, |todo|);
        }
      }
      success, fail, stopped, commands, saved := t.success, t.fail, t.stopped, t.commands, t.saved;
    }

    /** What the archive and the archive file hold after recording `saved`
        onto what they held before. */
    ghost predicate Recorded(archive0: set<string>, written0: seq<string>, saved: seq<string>)
      reads this, config
    {
      && (Truthy(Get(config.settings, "archive_file")) ==>
            archive == archive0 + SetOf(saved) && written == written0 + saved)
      && (!Truthy(Get(config.settings, "archive_file")) ==> archive == archive0 && written == written0)
    }

    /** One pass of the loop body for `url`. */
    method Visit(ghost plan: Plan, s: Settings, req: Request, ghost archive0: set<string>, ghost written0: seq<string>,
                 t: Tally, url: string, outcome: Outcome) returns (t': Tally)
      requires Config.HasDefaults(s) && config.settings == s
      requires forall u {:trigger PlanFor(s, req, u)} :: plan(u) == PlanFor(s, req, u)
      requires Recorded(archive0, written0, t.saved)
      modifies this
      ensures t' == Step(t, plan(url), url, outcome)
      ensures Recorded(archive0, written0, t'.saved)
    {
      var cmd := Attempt(s, req, url);
      assert plan(url) == cmd;
      if cmd.None? {
        t' := t.(fail := t.fail + 1);
      } else {
        var commands := t.commands + [cmd.value];
        match outcome
        case Interrupted =>
          t' := t.(stopped := true, commands := commands);
        case Raised =>
          t' := t.(fail := t.fail + 1, commands := commands);
        case Exit(code) =>
          if code == 0 {
            SaveToArchive(url);
            SetOfSnoc(t.saved, url);
            t' := t.(success := t.success + 1, commands := commands, saved := t.saved + [url]);
            assert Recorded(archive0, written0, t'.saved);
          } else {
            t' := t.(fail := t.fail + 1, commands := commands);
          }
      }
    }
  }

  /** Building the command for one URL inside the `try` of the loop. */
  method Attempt(s: Settings, req: Request, url: string) returns (cmd: Option<seq<string>>)
    requires Config.HasDefaults(s)
    ensures cmd == PlanFor(s, req, url)
  {
    if RateLimitUsable(s) {
      var c := BuildCommand(s, req, url);
      cmd := Some(c);
    } else {
      cmd := None;
    }
  }
}
