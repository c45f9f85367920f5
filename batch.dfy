/** The batch runner of `cli/batch.py`: reading a file of URLs, downloading
    them one after the other while tallying successes and failures, and the
    resume data that lets an interrupted batch skip what it already did. */
module Batch {
  import opened Py
  import opened Text
  import opened Validators

  /** A URL to download, with the 1-based line of the input file it came from. */
  datatype UrlEntry = UrlEntry(line: nat, url: string)

  /** A `failed_urls` value: `{'line': …, 'error': …, 'timestamp': …}`. */
  datatype FailureInfo = FailureInfo(line: nat, error: string, timestamp: string)

  /** The resume file on disk: absent, unreadable, not valid JSON, or a
      snapshot of the processed set and the failed map. */
  datatype ResumeFile =
    | Absent
    | Unreadable
    | Corrupt
    | Stored(processed: set<string>, failed: map<string, FailureInfo>)

  /** The state of a `BatchProcessor`: its two collections and its resume file. */
  datatype ResumeState = ResumeState(processed: set<string>, failed: map<string, FailureInfo>, file: ResumeFile)

  /** The resume file after `save_resume_data` has tried to write the
      snapshot: written, left as it was when the directory or file could not
      be opened, or truncated and unreadable when writing broke off. */
  function Persist(file: ResumeFile, processed: set<string>, failed: map<string, FailureInfo>, io: IoResult): ResumeFile {
    match io
    case IoOk => Stored(processed, failed)
    case OpenFailed => file
    case WriteFailed => Corrupt
  }

  /** A new processor: empty collections, then `load_resume_data`, which
      takes the snapshot when there is one and keeps them empty when the file
      is missing, unreadable or corrupt. */
  function ResumeLoaded(file: ResumeFile): (s: ResumeState)
    ensures s.file == file
    ensures file.Stored? ==> s.processed == file.processed && s.failed == file.failed
    ensures !file.Stored? ==> s.processed == {} && s.failed == map[]
  {
    match file
    case Stored(processed, failed) => ResumeState(processed, failed, file)
    case _ => ResumeState({}, map[], file)
  }

  /** `--clear-resume`: when the resume file exists it is deleted and both
      collections are emptied; otherwise nothing changes. */
  function Cleared(s: ResumeState, clear: bool): (r: ResumeState)
    ensures clear && !s.file.Absent? ==> r == ResumeState({}, map[], Absent)
    ensures !(clear && !s.file.Absent?) ==> r == s
  {
    if clear && !s.file.Absent? then ResumeState({}, map[], Absent) else s
  }

  /** A snapshot written without error is read back exactly by a new
      processor; one whose writing broke off is read back as nothing, and one
      that could not be opened leaves the previous file in place. */
  lemma ResumeRoundTrip(file: ResumeFile, processed: set<string>, failed: map<string, FailureInfo>)
    ensures var s := ResumeLoaded(Persist(file, processed, failed, IoOk));
      s.processed == processed && s.failed == failed
    ensures var s := ResumeLoaded(Persist(file, processed, failed, WriteFailed));
      s.processed == {} && s.failed == map[]
    ensures ResumeLoaded(Persist(file, processed, failed, OpenFailed)) == ResumeLoaded(file)
  {
  }

  // ---------------------------------------------------------------------
  // Reading the URL file

  /** The filters `read_urls_from_file` applies to a stripped line: not
      blank, not a `#` comment, and a valid URL. */
  predicate Keep(line: string) {
    line != "" && !("#" <= line) && IsValidUrl(line)
  }

  /** The blank-line and comment filters never reject a valid URL, so a
      stripped line is kept exactly when it is a valid URL. */
  lemma KeepIsValidUrl(line: string)
    ensures Keep(line) <==> IsValidUrl(line)
  {
    if IsValidUrl(line) {
      ValidUrlShape(line);
    }
  }

  /** What line `j` (0-based) of the file contributes: its stripped text
      with its 1-based line number when the filters keep it. */
  function LineEntry(lines: seq<string>, j: nat): seq<UrlEntry>
    requires j < |lines|
  {
    var line := Strip(lines[j]);
    if Keep(line) then [UrlEntry(j + 1, line)] else []
  }

  /** The entries `read_urls_from_file` returns for the lines of a file. */
  function SelectUrls(lines: seq<string>): seq<UrlEntry>
  {
    if |lines| == 0 then [] else SelectUrls(lines[..|lines| - 1]) + LineEntry(lines, |lines| - 1)
  }

  /** Every entry comes from a kept line of `lines`: its line number is the
      1-based position of that line, and its URL is the stripped line. */
  predicate FromKeptLines(entries: seq<UrlEntry>, lines: seq<string>) {
    forall e :: e in entries ==> 1 <= e.line <= |lines| && e.url == Strip(lines[e.line - 1]) && Keep(e.url)
  }

  lemma {:induction false} SelectUrlsSound(lines: seq<string>)
    ensures FromKeptLines(SelectUrls(lines), lines)
  {
    if |lines| > 0 {
      var front := lines[..|lines| - 1];
      SelectUrlsSound(front);
      var f := SelectUrls(front);
      var t := LineEntry(lines, |lines| - 1);
      forall e: UrlEntry | e in f + t
        ensures 1 <= e.line <= |lines| && e.url == Strip(lines[e.line - 1]) && Keep(e.url)
      {
        if e in f {
          assert lines[e.line - 1] == front[e.line - 1];
        }
      }
    }
  }

  /** Every kept line of the file is returned. */
  lemma {:induction false} SelectUrlsComplete(lines: seq<string>)
    ensures forall j :: 0 <= j < |lines| && Keep(Strip(lines[j])) ==>
      UrlEntry(j + 1, Strip(lines[j])) in SelectUrls(lines)
  {
    if |lines| > 0 {
      var front := lines[..|lines| - 1];
      SelectUrlsComplete(front);
      forall j | 0 <= j < |lines| - 1 && Keep(Strip(lines[j]))
        ensures UrlEntry(j + 1, Strip(lines[j])) in SelectUrls(lines)
      {
        assert lines[j] == front[j];
      }
    }
  }

  /** Line numbers strictly increase along `entries`. */
  predicate LinesIncrease(entries: seq<UrlEntry>) {
    forall a, b :: 0 <= a < b < |entries| ==> entries[a].line < entries[b].line
  }

  /** The entries are in file order. */
  lemma {:induction false} SelectUrlsIncreasing(lines: seq<string>)
    ensures LinesIncrease(SelectUrls(lines))
  {
    if |lines| > 0 {
      var front := lines[..|lines| - 1];
      SelectUrlsIncreasing(front);
      SelectUrlsSound(front);
      var f := SelectUrls(front);
      var t := LineEntry(lines, |lines| - 1);
      assert forall e :: e in t ==> e.line == |lines|;
      var r := f + t;
      forall a, b | 0 <= a < b < |r|
        ensures r[a].line < r[b].line
      {
        if b >= |f| {
          assert r[a] == f[a] && f[a] in f;
          assert r[b] in t;
        }
      }
    }
  }

  // ---------------------------------------------------------------------
  // Processing the URLs

  /** What a call of `download_audio` does for one entry: returns true,
      returns false, raises an exception with a message, or is interrupted by
      the user. */
  datatype Response = Downloaded | DownloadFailed | Raised(message: string) | Interrupted

  /** The world the batch runs in, each indexed by the 1-based position of
      the entry: the downloader's response, the clock reading taken for a
      failure record, and how the resume-file write after that entry ends. */
  datatype Env = Env(download: (nat, string) -> Response, clock: nat -> string, io: nat -> IoResult)

  predicate Failing(r: Response) {
    r.DownloadFailed? || r.Raised?
  }

  /** The error text recorded for a failing response. */
  function ErrorText(r: Response): string
    requires Failing(r)
  {
    if r.Raised? then r.message else "Download failed"
  }

  /** The response for the entry at 1-based position `idx`. */
  function ResponseAt(urls: seq<UrlEntry>, idx: nat, env: Env): Response
    requires 1 <= idx <= |urls|
  {
    env.download(idx, urls[idx - 1].url)
  }

  /** The failure record written for the entry at 1-based position `idx`. */
  function RecordAt(urls: seq<UrlEntry>, idx: nat, env: Env): FailureInfo
    requires 1 <= idx <= |urls| && Failing(ResponseAt(urls, idx, env))
  {
    FailureInfo(urls[idx - 1].line, ErrorText(ResponseAt(urls, idx, env)), env.clock(idx))
  }

  /** The state of `process_urls` after some entries: the processor's
      collections and resume file, the two counters, how many entries were
      skipped as already processed, the positions at which the downloader was
      called and at which resume data was saved, and the position of the
      interrupt that ended the loop, if any. */
  datatype Progress = Progress(
    processed: set<string>,
    failed: map<string, FailureInfo>,
    resumeFile: ResumeFile,
    success: nat,
    failures: nat,
    skipped: nat,
    invoked: seq<nat>,
    saves: seq<nat>,
    stoppedAt: Option<nat>)

  function Start(s: ResumeState): Progress {
    Progress(s.processed, s.failed, s.file, 0, 0, 0, [], [], None)
  }

  /** `if resume: self.save_resume_data()` after the entry at `idx`. */
  function SaveIfResuming(p: Progress, resume: bool, env: Env, idx: nat): Progress {
    if resume then p.(resumeFile := Persist(p.resumeFile, p.processed, p.failed, env.io(idx)), saves := p.saves + [idx])
    else p
  }

  /** The body of the `try` block for the entry `e` at position `idx`: the
      downloader is called and its response counted and recorded. */
  function Attempt(p: Progress, e: UrlEntry, idx: nat, response: Response, env: Env): Progress {
    var called := p.(invoked := p.invoked + [idx]);
    if response.Downloaded? then called.(success := p.success + 1, processed := p.processed + {e.url})
    else if response.Interrupted? then called.(stoppedAt := Some(idx))
    else called.(failures := p.failures + 1, failed := p.failed[e.url := FailureInfo(e.line, ErrorText(response), env.clock(idx))])
  }

  /** One iteration of the loop of `process_urls`, for the entry at 0-based
      index `i`: skipped and counted as a success when resuming and its URL
      is processed, otherwise attempted and followed by a save when
      resuming; once the loop has been broken off nothing changes. */
  function Step(p: Progress, urls: seq<UrlEntry>, i: nat, resume: bool, env: Env): Progress
    requires i < |urls|
  {
    if p.stoppedAt.Some? then p
    else if resume && urls[i].url in p.processed then p.(success := p.success + 1, skipped := p.skipped + 1)
    else SaveIfResuming(Attempt(p, urls[i], i + 1, env.download(i + 1, urls[i].url), env), resume, env, i + 1)
  }

  /** The loop of `process_urls` over the first `k` entries. */
  function Run(urls: seq<UrlEntry>, k: nat, s: ResumeState, resume: bool, env: Env): Progress
    requires k <= |urls|
  {
    if k == 0 then Start(s) else Step(Run(urls, k - 1, s, resume, env), urls, k - 1, resume, env)
  }

  /** Once the loop is broken off, later entries change nothing. */
  lemma {:induction false} RunAfterStop(urls: seq<UrlEntry>, i: nat, k: nat, s: ResumeState, resume: bool, env: Env)
    requires i <= k <= |urls|
    requires Run(urls, i, s, resume, env).stoppedAt.Some?
    ensures Run(urls, k, s, resume, env) == Run(urls, i, s, resume, env)
  {
    if k > i {
      RunAfterStop(urls, i, k - 1, s, resume, env);
    }
  }

  // One iteration, field by field. `Live` holds when the iteration calls
  // the downloader: the loop has not been broken off and the entry is not
  // skipped as already processed.

  predicate Live(p: Progress, urls: seq<UrlEntry>, i: nat, resume: bool)
    requires i < |urls|
  {
    p.stoppedAt.None? && !(resume && urls[i].url in p.processed)
  }

  /** The downloader is called exactly in a live iteration. */
  lemma StepInvokes(p: Progress, urls: seq<UrlEntry>, i: nat, resume: bool, env: Env)
    requires i < |urls|
    ensures Step(p, urls, i, resume, env).invoked ==
      if Live(p, urls, i, resume) then p.invoked + [i + 1] else p.invoked
  {
  }

  /** A skipped entry counts as a success, so does a download that
      succeeded; a failed download counts as a failure; an interrupted one
      counts as neither. */
  lemma StepCounts(p: Progress, urls: seq<UrlEntry>, i: nat, resume: bool, env: Env)
    requires i < |urls|
    ensures var q, r := Step(p, urls, i, resume, env), ResponseAt(urls, i + 1, env);
      && q.skipped == p.skipped + (if p.stoppedAt.None? && !Live(p, urls, i, resume) then 1 else 0)
      && q.success == p.success + (if p.stoppedAt.None? && (!Live(p, urls, i, resume) || r.Downloaded?) then 1 else 0)
      && q.failures == p.failures + (if Live(p, urls, i, resume) && Failing(r) then 1 else 0)
  {
  }

  /** A live iteration adds its URL to the processed set exactly when the
      download succeeds; nothing else touches the set. */
  lemma StepProcessed(p: Progress, urls: seq<UrlEntry>, i: nat, resume: bool, env: Env)
    requires i < |urls|
    ensures Step(p, urls, i, resume, env).processed ==
      if Live(p, urls, i, resume) && ResponseAt(urls, i + 1, env).Downloaded?
      then p.processed + {urls[i].url}
      else p.processed
  {
  }

  /** A live iteration writes the failure record of its URL exactly when
      the download fails; nothing else touches the map. */
  lemma StepFailed(p: Progress, urls: seq<UrlEntry>, i: nat, resume: bool, env: Env)
    requires i < |urls|
    ensures Step(p, urls, i, resume, env).failed ==
      if Live(p, urls, i, resume) && Failing(ResponseAt(urls, i + 1, env))
      then p.failed[urls[i].url := RecordAt(urls, i + 1, env)]
      else p.failed
  {
  }

  /** A live iteration breaks the loop off exactly when the user interrupts
      the download. */
  lemma StepStops(p: Progress, urls: seq<UrlEntry>, i: nat, resume: bool, env: Env)
    requires i < |urls|
    ensures Step(p, urls, i, resume, env).stoppedAt ==
      if Live(p, urls, i, resume) && ResponseAt(urls, i + 1, env).Interrupted?
      then Some(i + 1)
      else p.stoppedAt
  {
  }

  /** A live iteration in resume mode ends by saving the updated
      collections; no other iteration writes the resume file. */
  lemma StepSaves(p: Progress, urls: seq<UrlEntry>, i: nat, resume: bool, env: Env)
    requires i < |urls|
    ensures var q := Step(p, urls, i, resume, env);
      && q.saves == (if Live(p, urls, i, resume) && resume then p.saves + [i + 1] else p.saves)
      && q.resumeFile ==
           if Live(p, urls, i, resume) && resume then Persist(p.resumeFile, q.processed, q.failed, env.io(i + 1))
           else p.resumeFile
  {
  }

  // The loop as a whole.

  /** The counters after `k` entries: without an interrupt each entry adds
      one to exactly one of them, skipped entries counting as successes; an
      interrupt at position `idx` comes from the downloader and leaves
      `idx - 1` counted. */
  predicate Counted(p: Progress, urls: seq<UrlEntry>, env: Env, k: nat)
    requires k <= |urls|
  {
    && p.skipped <= p.success
    && (p.stoppedAt.None? ==> p.success + p.failures == k)
    && (p.stoppedAt.Some? ==>
          && 1 <= p.stoppedAt.value <= k
          && p.success + p.failures == p.stoppedAt.value - 1
          && ResponseAt(urls, p.stoppedAt.value, env).Interrupted?)
  }

  lemma StepCounted(p: Progress, urls: seq<UrlEntry>, i: nat, resume: bool, env: Env)
    requires i < |urls| && Counted(p, urls, env, i)
    ensures Counted(Step(p, urls, i, resume, env), urls, env, i + 1)
  {
    StepCounts(p, urls, i, resume, env);
    StepStops(p, urls, i, resume, env);
  }

  /** Counting holds after every prefix of the batch, and only the
      downloader reporting an interrupt ends the loop early. */
  lemma {:induction false} RunCounts(urls: seq<UrlEntry>, k: nat, s: ResumeState, resume: bool, env: Env)
    requires k <= |urls|
    ensures Counted(Run(urls, k, s, resume, env), urls, env, k)
    ensures (forall j :: 1 <= j <= k ==> !ResponseAt(urls, j, env).Interrupted?) ==>
      Run(urls, k, s, resume, env).stoppedAt.None?
  {
    if k > 0 {
      RunCounts(urls, k - 1, s, resume, env);
      StepCounted(Run(urls, k - 1, s, resume, env), urls, k - 1, resume, env);
    }
  }

  /** The downloader was called in file order, at most once per entry, and
      only for the first `k` entries. */
  predicate InvokedInOrder(p: Progress, k: nat) {
    && (forall n :: 0 <= n < |p.invoked| ==> 1 <= p.invoked[n] <= k)
    && (forall a, b :: 0 <= a < b < |p.invoked| ==> p.invoked[a] < p.invoked[b])
  }

  lemma StepInOrder(p: Progress, urls: seq<UrlEntry>, i: nat, resume: bool, env: Env)
    requires i < |urls| && InvokedInOrder(p, i)
    ensures InvokedInOrder(Step(p, urls, i, resume, env), i + 1)
  {
    StepInvokes(p, urls, i, resume, env);
  }

  lemma {:induction false} RunInvokedInOrder(urls: seq<UrlEntry>, k: nat, s: ResumeState, resume: bool, env: Env)
    requires k <= |urls|
    ensures InvokedInOrder(Run(urls, k, s, resume, env), k)
  {
    if k > 0 {
      RunInvokedInOrder(urls, k - 1, s, resume, env);
      StepInOrder(Run(urls, k - 1, s, resume, env), urls, k - 1, resume, env);
    }
  }

  /** The downloader was called for each of the first `m` positions in
      turn, where `m` is `k` or the position of the interrupt. */
  predicate InvokedEvery(p: Progress, k: nat) {
    && |p.invoked| == (if p.stoppedAt.Some? then p.stoppedAt.value else k)
    && forall n :: 0 <= n < |p.invoked| ==> p.invoked[n] == n + 1
  }

  lemma StepInvokedEvery(p: Progress, urls: seq<UrlEntry>, i: nat, env: Env)
    requires i < |urls| && InvokedEvery(p, i)
    ensures InvokedEvery(Step(p, urls, i, false, env), i + 1)
  {
    StepInvokes(p, urls, i, false, env);
    StepStops(p, urls, i, false, env);
  }

  /** Outside resume mode every entry up to the interrupt reaches the
      downloader, URLs processed by an earlier run included. */
  lemma {:induction false} RunInvokesEvery(urls: seq<UrlEntry>, k: nat, s: ResumeState, env: Env)
    requires k <= |urls|
    ensures InvokedEvery(Run(urls, k, s, false, env), k)
  {
    if k > 0 {
      RunInvokesEvery(urls, k - 1, s, env);
      StepInvokedEvery(Run(urls, k - 1, s, false, env), urls, k - 1, env);
    }
  }

  /** The URLs of a list of entries. */
  function UrlsOf(entries: seq<UrlEntry>): set<string> {
    set e | e in entries :: e.url
  }

  /** The collections only grow, and only by URLs of the batch. */
  lemma {:induction false} RunGrows(urls: seq<UrlEntry>, k: nat, s: ResumeState, resume: bool, env: Env)
    requires k <= |urls|
    ensures var p := Run(urls, k, s, resume, env);
      && s.processed <= p.processed <= s.processed + UrlsOf(urls[..k])
      && s.failed.Keys <= p.failed.Keys <= s.failed.Keys + UrlsOf(urls[..k])
  {
    if k > 0 {
      RunGrows(urls, k - 1, s, resume, env);
      StepProcessed(Run(urls, k - 1, s, resume, env), urls, k - 1, resume, env);
      StepFailed(Run(urls, k - 1, s, resume, env), urls, k - 1, resume, env);
      assert urls[..k] == urls[..k - 1] + [urls[k - 1]];
      assert UrlsOf(urls[..k]) == UrlsOf(urls[..k - 1]) + {urls[k - 1].url};
    }
  }

  /** No entry that reached the downloader has a URL of `processed`. */
  predicate AvoidsProcessed(p: Progress, urls: seq<UrlEntry>, processed: set<string>) {
    forall j :: j in p.invoked && 1 <= j <= |urls| ==> urls[j - 1].url !in processed
  }

  lemma StepAvoidsProcessed(p: Progress, urls: seq<UrlEntry>, i: nat, env: Env, processed: set<string>)
    requires i < |urls| && processed <= p.processed && AvoidsProcessed(p, urls, processed)
    ensures processed <= Step(p, urls, i, true, env).processed
    ensures AvoidsProcessed(Step(p, urls, i, true, env), urls, processed)
  {
    StepInvokes(p, urls, i, true, env);
    StepProcessed(p, urls, i, true, env);
  }

  /** In resume mode an entry whose URL was processed when the run began
      never reaches the downloader. */
  lemma {:induction false} RunResumeSkips(urls: seq<UrlEntry>, k: nat, s: ResumeState, env: Env)
    requires k <= |urls|
    ensures s.processed <= Run(urls, k, s, true, env).processed
    ensures AvoidsProcessed(Run(urls, k, s, true, env), urls, s.processed)
  {
    if k > 0 {
      RunResumeSkips(urls, k - 1, s, env);
      StepAvoidsProcessed(Run(urls, k - 1, s, true, env), urls, k - 1, env, s.processed);
    }
  }

  /** Every entry among the first `k` that the loop reached and whose URL
      is not in the processed set reached the downloader. */
  predicate InvokedUnprocessed(p: Progress, urls: seq<UrlEntry>, k: nat) {
    forall j :: 1 <= j <= k && j <= |urls| && (p.stoppedAt.None? || j <= p.stoppedAt.value) && urls[j - 1].url !in p.processed ==>
      j in p.invoked
  }

  lemma StepInvokedUnprocessed(p: Progress, urls: seq<UrlEntry>, i: nat, env: Env)
    requires i < |urls| && InvokedUnprocessed(p, urls, i)
    requires p.stoppedAt.None? || p.stoppedAt.value <= i
    ensures InvokedUnprocessed(Step(p, urls, i, true, env), urls, i + 1)
  {
    var q := Step(p, urls, i, true, env);
    StepInvokes(p, urls, i, true, env);
    StepProcessed(p, urls, i, true, env);
    StepStops(p, urls, i, true, env);
    forall j | 1 <= j <= i + 1 && j <= |urls| && (q.stoppedAt.None? || j <= q.stoppedAt.value) && urls[j - 1].url !in q.processed
      ensures j in q.invoked
    {
      if j <= i {
        assert j in p.invoked;
      }
    }
  }

  /** In resume mode an entry whose URL is still unprocessed at the end
      reached the downloader, unless the loop was broken off before it. */
  lemma {:induction false} RunResumeRetries(urls: seq<UrlEntry>, k: nat, s: ResumeState, env: Env)
    requires k <= |urls|
    ensures InvokedUnprocessed(Run(urls, k, s, true, env), urls, k)
  {
    if k > 0 {
      RunResumeRetries(urls, k - 1, s, env);
      RunCounts(urls, k - 1, s, true, env);
      StepInvokedUnprocessed(Run(urls, k - 1, s, true, env), urls, k - 1, env);
    }
  }

  /** Resume data is saved after exactly the entries that reached the
      downloader, the interrupted one included, when resuming, and never
      otherwise. */
  lemma {:induction false} RunSaves(urls: seq<UrlEntry>, k: nat, s: ResumeState, resume: bool, env: Env)
    requires k <= |urls|
    ensures var p := Run(urls, k, s, resume, env);
      && (resume ==> p.saves == p.invoked)
      && (!resume ==> p.saves == [] && p.resumeFile == s.file)
  {
    if k > 0 {
      RunSaves(urls, k - 1, s, resume, env);
      StepInvokes(Run(urls, k - 1, s, resume, env), urls, k - 1, resume, env);
      StepSaves(Run(urls, k - 1, s, resume, env), urls, k - 1, resume, env);
    }
  }

  /** In resume mode, when every write succeeds, the resume file holds the
      final collections as soon as anything was saved, so a new processor
      loads back exactly the state the run ended in. */
  lemma {:induction false} RunPersisted(urls: seq<UrlEntry>, k: nat, s: ResumeState, env: Env)
    requires k <= |urls|
    requires forall j :: 1 <= j <= k ==> env.io(j) == IoOk
    ensures var p := Run(urls, k, s, true, env);
      p.saves != [] ==> p.resumeFile == Stored(p.processed, p.failed)
  {
    if k > 0 {
      RunPersisted(urls, k - 1, s, env);
      StepProcessed(Run(urls, k - 1, s, true, env), urls, k - 1, true, env);
      StepFailed(Run(urls, k - 1, s, true, env), urls, k - 1, true, env);
      StepSaves(Run(urls, k - 1, s, true, env), urls, k - 1, true, env);
    }
  }

  /** Every download that reached the downloader is recorded: a success puts
      its URL in the processed set and a failure puts it in the failed map. */
  predicate OutcomesRecorded(p: Progress, urls: seq<UrlEntry>, env: Env) {
    && (forall j :: j in p.invoked && 1 <= j <= |urls| && ResponseAt(urls, j, env).Downloaded? ==>
          urls[j - 1].url in p.processed)
    && (forall j :: j in p.invoked && 1 <= j <= |urls| && Failing(ResponseAt(urls, j, env)) ==>
          urls[j - 1].url in p.failed)
  }

  lemma StepRecordsOutcomes(p: Progress, urls: seq<UrlEntry>, i: nat, resume: bool, env: Env)
    requires i < |urls| && OutcomesRecorded(p, urls, env)
    ensures OutcomesRecorded(Step(p, urls, i, resume, env), urls, env)
  {
    StepInvokes(p, urls, i, resume, env);
    StepProcessed(p, urls, i, resume, env);
    StepFailed(p, urls, i, resume, env);
  }

  /** A later success for the same URL never removes a failure record. */
  lemma {:induction false} RunRecordsOutcomes(urls: seq<UrlEntry>, k: nat, s: ResumeState, resume: bool, env: Env)
    requires k <= |urls|
    ensures OutcomesRecorded(Run(urls, k, s, resume, env), urls, env)
  {
    if k > 0 {
      RunRecordsOutcomes(urls, k - 1, s, resume, env);
      StepRecordsOutcomes(Run(urls, k - 1, s, resume, env), urls, k - 1, resume, env);
    }
  }

  /** No entry after position `j` that reached the downloader failed for
      the same URL. */
  predicate NoLaterFailure(p: Progress, urls: seq<UrlEntry>, env: Env, j: nat)
    requires 1 <= j <= |urls|
  {
    forall j' :: j' in p.invoked && j < j' <= |urls| && urls[j' - 1].url == urls[j - 1].url ==>
      !Failing(ResponseAt(urls, j', env))
  }

  /** The failed map holds, for each URL, the record written by the last
      entry for that URL whose download failed. */
  predicate LastFailureKept(p: Progress, urls: seq<UrlEntry>, env: Env) {
    forall j :: j in p.invoked && 1 <= j <= |urls| && Failing(ResponseAt(urls, j, env)) && NoLaterFailure(p, urls, env, j) ==>
      urls[j - 1].url in p.failed && p.failed[urls[j - 1].url] == RecordAt(urls, j, env)
  }

  lemma StepLastFailureKept(p: Progress, urls: seq<UrlEntry>, i: nat, resume: bool, env: Env)
    requires i < |urls| && InvokedInOrder(p, i) && LastFailureKept(p, urls, env)
    ensures LastFailureKept(Step(p, urls, i, resume, env), urls, env)
  {
    var q := Step(p, urls, i, resume, env);
    StepInvokes(p, urls, i, resume, env);
    StepFailed(p, urls, i, resume, env);
    forall j | j in q.invoked && 1 <= j <= |urls| && Failing(ResponseAt(urls, j, env)) && NoLaterFailure(q, urls, env, j)
      ensures urls[j - 1].url in q.failed && q.failed[urls[j - 1].url] == RecordAt(urls, j, env)
    {
      if j != i + 1 {
        assert j in p.invoked;
        assert NoLaterFailure(p, urls, env, j);
        if i + 1 in q.invoked && urls[i].url == urls[j - 1].url {
          assert !Failing(ResponseAt(urls, i + 1, env));
        }
      }
    }
  }

  /** Later iterations overwrite the failure record of a URL, so the one
      kept is the last. */
  lemma {:induction false} RunLastFailureWins(urls: seq<UrlEntry>, k: nat, s: ResumeState, resume: bool, env: Env)
    requires k <= |urls|
    ensures LastFailureKept(Run(urls, k, s, resume, env), urls, env)
  {
    if k > 0 {
      RunLastFailureWins(urls, k - 1, s, resume, env);
      RunInvokedInOrder(urls, k - 1, s, resume, env);
      StepLastFailureKept(Run(urls, k - 1, s, resume, env), urls, k - 1, resume, env);
    }
  }

  /** `sum(1 for _, url in urls if url in processed)`. */
  function SkipCount(urls: seq<UrlEntry>, processed: set<string>): (n: nat)
    ensures n <= |urls|
  {
    if |urls| == 0 then 0
    else SkipCount(urls[..|urls| - 1], processed) + (if urls[|urls| - 1].url in processed then 1 else 0)
  }

  /** In resume mode every entry counted by the skip notice is skipped, so a
      run that is not interrupted skips at least that many entries. */
  lemma {:induction false} RunSkipsAnnounced(urls: seq<UrlEntry>, k: nat, s: ResumeState, env: Env)
    requires k <= |urls|
    ensures var p := Run(urls, k, s, true, env);
      p.stoppedAt.None? ==> p.skipped >= SkipCount(urls[..k], s.processed)
  {
    if k > 0 {
      var p := Run(urls, k - 1, s, true, env);
      RunSkipsAnnounced(urls, k - 1, s, env);
      RunResumeSkips(urls, k - 1, s, env);
      StepCounts(p, urls, k - 1, true, env);
      StepStops(p, urls, k - 1, true, env);
      assert urls[..k][..k - 1] == urls[..k - 1];
    }
  }

  /** Every one of the first `k` entries was skipped as already processed:
      the downloader was never called, nothing was saved, every entry counts
      as a success, and the collections and the file are as they were. */
  predicate SkippedAll(p: Progress, s: ResumeState, k: nat) {
    && p.invoked == [] && p.saves == [] && p.stoppedAt.None?
    && p.success == k && p.skipped == k && p.failures == 0
    && p.processed == s.processed && p.failed == s.failed && p.resumeFile == s.file
  }

  /** A resume run over URLs that are all processed downloads nothing and
      counts every entry as a success. */
  lemma {:induction false} RunOverProcessedSkipsAll(urls: seq<UrlEntry>, k: nat, s: ResumeState, env: Env)
    requires k <= |urls|
    requires forall e :: e in urls ==> e.url in s.processed
    ensures SkippedAll(Run(urls, k, s, true, env), s, k)
  {
    if k > 0 {
      RunOverProcessedSkipsAll(urls, k - 1, s, env);
      assert urls[k - 1] in urls;
    }
  }

  /** Resuming works across runs: after a resume run whose writes all
      succeed and that saved anything, a new processor loads exactly the
      collections the run ended with, and a second resume run, over any list,
      never downloads again a URL the first run downloaded or had already. */
  lemma {:induction false} SecondRunSkipsFirst(urls: seq<UrlEntry>, s: ResumeState, env: Env, again: seq<UrlEntry>, k: nat, env': Env)
    requires forall j :: 1 <= j <= |urls| ==> env.io(j) == IoOk
    requires Run(urls, |urls|, s, true, env).saves != []
    requires k <= |again|
    ensures var first := Run(urls, |urls|, s, true, env);
      var reopened := ResumeLoaded(first.resumeFile);
      && reopened.processed == first.processed && reopened.failed == first.failed
      && s.processed <= first.processed
      && AvoidsProcessed(Run(again, k, reopened, true, env'), again, first.processed)
  {
    var first := Run(urls, |urls|, s, true, env);
    RunPersisted(urls, |urls|, s, env);
    RunResumeSkips(urls, |urls|, s, env);
    RunResumeSkips(again, k, ResumeLoaded(first.resumeFile), env');
  }

  /** Running a batch again is idempotent: after a resume run in which
      every download succeeded and every write went through, a new processor
      running the same batch in resume mode calls the downloader for no
      entry, writes nothing, and counts every entry as a success. */
  lemma {:induction false} SecondRunDownloadsNothing(urls: seq<UrlEntry>, s: ResumeState, env: Env, env': Env)
    requires forall j :: 1 <= j <= |urls| ==> env.io(j) == IoOk && ResponseAt(urls, j, env) == Downloaded
    requires Run(urls, |urls|, s, true, env).saves != []
    ensures var reopened := ResumeLoaded(Run(urls, |urls|, s, true, env).resumeFile);
      SkippedAll(Run(urls, |urls|, reopened, true, env'), reopened, |urls|)
  {
    var first := Run(urls, |urls|, s, true, env);
    RunPersisted(urls, |urls|, s, env);
    RunCounts(urls, |urls|, s, true, env);
    RunResumeRetries(urls, |urls|, s, env);
    RunRecordsOutcomes(urls, |urls|, s, true, env);
    var reopened := ResumeLoaded(first.resumeFile);
    forall e | e in urls
      ensures e.url in reopened.processed
    {
      var j :| 0 <= j < |urls| && urls[j] == e;
      assert ResponseAt(urls, j + 1, env).Downloaded?;
      assert urls[j].url !in first.processed ==> j + 1 in first.invoked;
    }
    RunOverProcessedSkipsAll(urls, |urls|, reopened, env');
  }

  // ---------------------------------------------------------------------
  // The processor

  class BatchProcessor {
    /** `processed_urls`. */
    var processed: set<string>
    /** `failed_urls`. */
    var failed: map<string, FailureInfo>
    /** The file at `resume_file`. */
    var resumeFile: ResumeFile

    function State(): ResumeState
      reads this
    {
      ResumeState(processed, failed, resumeFile)
    }

    /** `BatchProcessor(resume_file)`: empty collections, then the resume
        data is loaded. */
    constructor (file: ResumeFile)
      ensures State() == ResumeLoaded(file)
    {
      processed := {};
      failed := map[];
      resumeFile := file;
      new;
      LoadResumeData();
    }

    /** `load_resume_data`: takes the snapshot when the file holds one; a
        missing, unreadable or corrupt file changes nothing. */
    method LoadResumeData()
      modifies this`processed, this`failed
      ensures resumeFile.Stored? ==> processed == resumeFile.processed && failed == resumeFile.failed
      ensures !resumeFile.Stored? ==> processed == old(processed) && failed == old(failed)
    {
      if resumeFile.Stored? {
        processed := resumeFile.processed;
        failed := resumeFile.failed;
      }
    }

    /** `save_resume_data`: writes the snapshot; an I/O error is swallowed
        and the collections never change. */
    method SaveResumeData(io: IoResult)
      modifies this`resumeFile
      ensures resumeFile == Persist(old(resumeFile), processed, failed, io)
    {
      resumeFile := Persist(resumeFile, processed, failed, io);
    }

    /** `read_urls_from_file` on the lines of a readable file. */
    method ReadUrlsFromFile(lines: seq<string>) returns (urls: seq<UrlEntry>)
      ensures urls == SelectUrls(lines)
    {
      urls := [];
      var i := 0;
      while i < |lines|
        invariant 0 <= i <= |lines|
        invariant urls == SelectUrls(lines[..i])
      {
        var line := Strip(lines[i]);
        assert lines[..i + 1][..i] == lines[..i];
        assert SelectUrls(lines[..i + 1]) == urls + LineEntry(lines, i);
        if line != "" && !("#" <= line) {
          if IsValidUrl(line) {
            urls := urls + [UrlEntry(i + 1, line)];
          }
        }
        i := i + 1;
      }
      assert lines[..i] == lines;
    }

    /** `process_urls(urls, …, resume)`: the loop over the entries, with the
        counters it returns and the collections and resume file it leaves,
        as `Run` describes them; `calls` and `saves` are the positions at
        which the downloader was called and resume data was saved. */
    method ProcessUrls(urls: seq<UrlEntry>, resume: bool, env: Env)
      returns (success: nat, failures: nat, ghost calls: seq<nat>, ghost saves: seq<nat>)
      modifies this
      ensures var p := Run(urls, |urls|, old(State()), resume, env);
        && success == p.success && failures == p.failures
        && State() == ResumeState(p.processed, p.failed, p.resumeFile)
        && calls == p.invoked && saves == p.saves
    {
      ghost var s := State();
      success, failures := 0, 0;
      ghost var skipped := 0;
      calls, saves := [], [];
      var i := 0;
      while i < |urls|
        invariant 0 <= i <= |urls|
        invariant Run(urls, i, s, resume, env) ==
          Progress(processed, failed, resumeFile, success, failures, skipped, calls, saves, None)
      {
        var idx := i + 1;
        var entry := urls[i];
        ghost var before := Progress(processed, failed, resumeFile, success, failures, skipped, calls, saves, None);
        assert Run(urls, idx, s, resume, env) == Step(before, urls, i, resume, env);
        if resume && entry.url in processed {
          success := success + 1;
          skipped := skipped + 1;
        } else {
          calls := calls + [idx];
          var response := env.download(idx, entry.url);
          match response {
            case Downloaded =>
              success := success + 1;
              processed := processed + {entry.url};
            case DownloadFailed =>
              failures := failures + 1;
              failed := failed[entry.url := FailureInfo(entry.line, "Download failed", env.clock(idx))];
            case Raised(message) =>
              failures := failures + 1;
              failed := failed[entry.url := FailureInfo(entry.line, message, env.clock(idx))];
            case Interrupted =>
          }
          if resume {
            SaveResumeData(env.io(idx));
            saves := saves + [idx];
          }
          StepStops(before, urls, i, resume, env);
          if response.Interrupted? {
            RunAfterStop(urls, idx, |urls|, s, resume, env);
            i := idx;
            break;
          }
        }
        i := i + 1;
      }
    }
  }

  /** `--clear-resume` applied to a processor. */
  method ClearResume(processor: BatchProcessor)
    modifies processor
    ensures processor.State() == Cleared(old(processor.State()), true)
  {
    if !processor.resumeFile.Absent? {
      processor.resumeFile := Absent;
      processor.processed := {};
      processor.failed := map[];
    }
  }

  /** The input file: its lines, or an I/O error while reading it. */
  datatype InputFile = Lines(lines: seq<string>) | ReadError

  /** The totals of the summary `main` prints. */
  datatype Summary = Summary(total: nat, success: nat, failures: nat)

  /** How `main` ends: its exit status, the skip notice it printed in resume
      mode, and the summary of a run that took place. */
  datatype BatchResult = BatchResult(exitCode: nat, skipNotice: Option<nat>, summary: Option<Summary>)

  /** `main(file, …, resume, clear_resume)` with the default resume file:
      a new processor loads the resume data and clears it on request; an
      unreadable input file or one without a valid URL ends with status 1
      before anything is downloaded; otherwise the URLs are processed and
      the status is 0 exactly when no download failed. */
  method RunBatch(input: InputFile, resumeFile: ResumeFile, resume: bool, clearResume: bool, env: Env)
    returns (r: BatchResult, processor: BatchProcessor)
    ensures fresh(processor)
    ensures var s := Cleared(ResumeLoaded(resumeFile), clearResume);
      && (input.ReadError? ==> r == BatchResult(1, None, None) && processor.State() == s)
      && (input.Lines? && SelectUrls(input.lines) == [] ==> r == BatchResult(1, None, None) && processor.State() == s)
      && (input.Lines? && SelectUrls(input.lines) != [] ==>
            var urls := SelectUrls(input.lines);
            var p := Run(urls, |urls|, s, resume, env);
            && r.exitCode == (if p.failures == 0 then 0 else 1)
            && r.summary == Some(Summary(|urls|, p.success, p.failures))
            && r.skipNotice == (if resume && s.processed != {} then Some(SkipCount(urls, s.processed)) else None)
            && processor.State() == ResumeState(p.processed, p.failed, p.resumeFile))
  {
    processor := new BatchProcessor(resumeFile);
    if clearResume {
      ClearResume(processor);
    }
    if input.ReadError? {
      return BatchResult(1, None, None), processor;
    }
    var urls := processor.ReadUrlsFromFile(input.lines);
    if urls == [] {
      return BatchResult(1, None, None), processor;
    }
    var skipNotice := None;
    if resume && processor.processed != {} {
      skipNotice := Some(SkipCount(urls, processor.processed));
    }
    var success, failures, calls, saves := processor.ProcessUrls(urls, resume, env);
    r := BatchResult(if failures == 0 then 0 else 1, skipNotice, Some(Summary(|urls|, success, failures)));
  }

  /** The exit status reports failures only: a batch broken off by an
      interrupt before any download failed ends with status 0. */
  lemma InterruptedRunExitsZero(urls: seq<UrlEntry>, s: ResumeState, env: Env)
    requires |urls| > 0
    requires env.download(1, urls[0].url) == Interrupted
    ensures var p := Run(urls, |urls|, s, false, env);
      p.stoppedAt == Some(1) && p.failures == 0 && p.success == 0
  {
    assert Run(urls, 1, s, false, env).stoppedAt == Some(1);
    RunAfterStop(urls, 1, |urls|, s, false, env);
  }
}
