# YouTube audio downloader: batch runner and configuration store in Dafny

This project models the core of a command-line YouTube audio downloader and
proves properties of the model. The model has four parts.

- **The batch runner** (`cli/batch.py`). It reads a file of URLs, one per
  line, skipping blank lines, `#` comments and invalid URLs. It downloads
  the URLs one after the other and counts successes and failures. In resume
  mode it keeps a resume file (the processed URLs and a failure record per
  failed URL), so that a later run skips what an earlier run already
  downloaded. Its `main` ends with status 1 when the file has no valid URL,
  and otherwise with status 0 exactly when no download failed.
- **The configuration store** (`core/config.py`). This is a dictionary of
  settings whose keys are fixed by the defaults. It is loaded from and saved
  to a JSON file, read and changed key by key, and turned into the option
  dictionary handed to the media fetcher.
- **The validators** (`utils/validators.py`): the URL prefix test and the
  audio-quality check.
- **The `set` and `reset` commands** (`cli/config_manager.py`): how a
  command-line value is coerced into a setting, and how a reset of one key
  differs from a reset of everything.

Modules:

- `Py` (py.dfy) holds Python values, truthiness, exceptions and I/O outcomes.
- `Text` (text.dfy) holds the string and integer builtins used by the core:
  `strip`, `lower`, `isdigit`, `int` and `str`.
- `Validators` (validators.dfy).
- `Configuration` (config.dfy), with the `Config` class.
- `ConfigManager` (config_manager.dfy).
- `Batch` (batch.dfy), with the `BatchProcessor` class.

Classes keep the state the source updates in place:

- `Config` holds `settings` and the configuration `file`.
- `BatchProcessor` holds `processed`, `failed` and the `resumeFile`.

The loops are methods with invariants, proved against specification
functions:

- `Config.Update` is proved against `ApplyAll`.
- The load loop `CopyRecognised` is proved against `Overlay`.
- `ReadUrlsFromFile` is proved against `SelectUrls`.
- `ProcessUrls` is proved against `Run`. `Run` folds `Step`, one iteration
  of the loop in `process_urls`, over the entries, and the lemmas about `Run`
  state what the loop guarantees.

The world outside the program is passed in as values:

- The downloader is a function from the entry's position and URL to a
  `Response`: downloaded, failed, raised with a message, or interrupted.
- The clock is a function from the position to the timestamp text.
- Each file write is an `IoResult`: written, failed before anything was
  written, or broken off after truncating the file.
- The contents of the configuration and resume files are fields, of types
  `ConfigFile` and `ResumeFile`.

## Model

| member | source | states |
|---|---|---|
| Py.ContainsName | youtube_audio_downloader/core/config.py:143 | `name in container`: a key test on a dictionary, a membership test on a list, a substring test on a string, a `TypeError` on a value that is not iterable |
| Py.IsSubstringOccurs | youtube_audio_downloader/core/config.py:143 | `name in s` on a string holds exactly when `name` occurs in `s` at some offset |
| Py.Subscript | youtube_audio_downloader/core/config.py:144 | `container[name]` succeeds exactly on a dictionary holding `name` and yields its value; a missing key raises `KeyError` |
| Text.IsDigitString | youtube_audio_downloader/cli/config_manager.py:49 | `isdigit()`: a non-empty string of digits; its meaning is fixed by `Coerce` and `ParseIntAccepts` |
| Text.ParseInt | youtube_audio_downloader/utils/validators.py:13 | `int(s)`: an optional sign then digits, or the `ValueError` case; characterised by `ParseIntAccepts` and `ParseIntOfDecimal` |
| Text.IntToDecimal | youtube_audio_downloader/utils/validators.py:16 | `str(i)` for any integer: a minus sign before the canonical decimal of the magnitude; `ParseIntOfDecimal` reads it back |
| Text.NatToDecimal | youtube_audio_downloader/utils/validators.py:16 | `str(n)` is a canonical decimal (no leading zero) denoting `n` |
| Text.CanonicalDecimalRoundTrip | youtube_audio_downloader/utils/validators.py:13-16 | printing the number a canonical decimal denotes gives the decimal back |
| Text.LeadingZeroIgnored | youtube_audio_downloader/utils/validators.py:13 | a leading zero does not change the number `int` reads |
| Text.ParseIntOfDecimal | youtube_audio_downloader/utils/validators.py:13-16 | `int(str(i)) == i` for every integer, negative ones included |
| Text.ParseIntAccepts | youtube_audio_downloader/utils/validators.py:13 | `int(s)` succeeds exactly on digits with at most one leading sign |
| Text.AsciiLower | youtube_audio_downloader/cli/config_manager.py:47-48 | `lower()` keeps the length and lower-cases each character |
| Text.Strip | youtube_audio_downloader/cli/batch.py:77 | `line.strip()`: `lstrip` then `rstrip` with the whitespace `isspace` accepts; characterised by `StripChars` and `StripCharsSlice` |
| Text.TrimStart | youtube_audio_downloader/cli/batch.py:77 | `lstrip`: the result is a suffix, everything cut off is in the stripped set, and the result does not start with a character of it |
| Text.TrimEnd | youtube_audio_downloader/cli/batch.py:77 | `rstrip`: the result is a prefix, everything cut off is in the stripped set, and the result does not end with a character of it |
| Text.StripChars | youtube_audio_downloader/cli/batch.py:77 | what `strip` keeps neither starts nor ends with a stripped character |
| Text.StripCharsSlice | youtube_audio_downloader/cli/batch.py:77 | what `strip` keeps is a contiguous slice of the line, and everything cut off on either side is whitespace |
| Validators.IsValidUrl | youtube_audio_downloader/utils/validators.py:21-23 | `startswith` on the three prefixes `http://`, `https://` and `www.`; `ValidUrlShape` and `ValidUrlExamples` state what it accepts |
| Validators.ValidUrlShape | youtube_audio_downloader/utils/validators.py:21-23 | a valid URL is at least four characters, starts with `h` or `w`, and is never blank, a `#` comment, or whitespace-led |
| Validators.ValidUrlExamples | youtube_audio_downloader/utils/validators.py:21-23 | the prefix test is exact and case-sensitive: `HTTPS://…`, `ftp://…`, a bare domain, a leading space and `http:/` are refused |
| Validators.ValidateQuality | youtube_audio_downloader/utils/validators.py:8-18 | no value passes as no value; a value is accepted exactly when it is an integer literal between 0 and 320, and is then returned as the canonical decimal of the same integer; otherwise the not-a-number or out-of-range message is raised |
| Validators.ValidateQualityIdempotent | youtube_audio_downloader/utils/validators.py:8-18 | validating an accepted quality again accepts it unchanged |
| Validators.ValidateQualityDropsLeadingZeros | youtube_audio_downloader/utils/validators.py:13-16 | `"0128"` is accepted as `"128"` |
| Validators.ValidateQualityDropsPlus | youtube_audio_downloader/utils/validators.py:13-16 | `"+320"` is accepted as `"320"` |
| Validators.ValidateQualityDropsMinusZero | youtube_audio_downloader/utils/validators.py:13-16 | `"-0"` is accepted as `"0"` |
| Validators.ValidateQualityRejectsRange | youtube_audio_downloader/utils/validators.py:14-15 | 321 and -1 are refused as out of range |
| Validators.ValidateQualityRejectsText | youtube_audio_downloader/utils/validators.py:17-18 | a word, the empty string, a decimal fraction and a lone sign are refused as not a number |
| Configuration.Loaded | youtube_audio_downloader/core/config.py:87-98 | the settings after a load that does not raise: the overlay of the file's object over them, or unchanged for a missing, unreadable or malformed file; see `LoadKeepsKeys`, `LoadIgnoresUnknownKeys` and `SaveLoadRoundTrip` |
| Configuration.Saved | youtube_audio_downloader/core/config.py:100-107 | the file after a save: a document holding the settings, the previous file when it could not be opened, or a malformed file when writing broke off |
| Configuration.Overlay | youtube_audio_downloader/core/config.py:94-96 | copying recognised entries: the keys are the old keys plus the recognised keys of the object, each recognised key of the object takes its value, and every other key keeps its own |
| Configuration.CopyRecognised | youtube_audio_downloader/core/config.py:94-96 | the loop over the object's entries, in any order, produces the overlay |
| Configuration.LoadKeepsKeys | youtube_audio_downloader/core/config.py:93-96 | loading never adds or drops a setting |
| Configuration.LoadIgnoresUnknownKeys | youtube_audio_downloader/core/config.py:93-96 | an unknown key of the file never reaches the settings; a recognised key takes the file's value |
| Configuration.SaveLoadRoundTrip | youtube_audio_downloader/core/config.py:87-107 | a successful save followed by a load restores the saved settings over any previous ones; after a save that broke off, a load changes nothing |
| Configuration.FirstUnknown | youtube_audio_downloader/core/config.py:115-123 | the position of the first unknown key of an update: every key before it is recognised, and the key at it is not |
| Configuration.ApplyAll | youtube_audio_downloader/core/config.py:120-123 | the settings after the pairs are `set` one after the other; see `ApplyAllKeepsKeys`, `ApplyAllLastWins` and `Config.Update` |
| Configuration.ApplyAllKeepsKeys | youtube_audio_downloader/core/config.py:113-123 | setting recognised keys keeps the key set |
| Configuration.ApplyAllLastWins | youtube_audio_downloader/core/config.py:120-123 | after a sequence of sets, a key holds the value of its last occurrence, or its old value when it does not occur |
| Configuration.RecognisedFetchSettings | youtube_audio_downloader/core/config.py:157-203 | every setting `get_ydl_opts` reads is one of the defaults' keys |
| Configuration.KeyGroupsDisjoint | youtube_audio_downloader/core/config.py:157-203 | the unconditional, range and audio option keys and `writeinfojson` are pairwise distinct |
| Configuration.WhenTruthy | youtube_audio_downloader/core/config.py:168-178 | `if setting: opts[key] = setting` adds the key exactly when the setting is truthy, and touches nothing else |
| Configuration.CoreOptions | youtube_audio_downloader/core/config.py:157-166 | the eight unconditional options copy their settings; `outtmpl` joins the output directory with the `filename_template` setting, the template `get_filename_template()` returns without a name; `noplaylist` negates the playlist setting |
| Configuration.RangeOptions | youtube_audio_downloader/core/config.py:168-178 | the rate limit and the three playlist-range options are each present exactly when their setting is truthy, and no other option changes |
| Configuration.PostProcessorSteps | youtube_audio_downloader/core/config.py:181-200 | the post-processor list in append order; `AudioOptions` states its order and conditions |
| Configuration.AudioOptions | youtube_audio_downloader/core/config.py:180-200 | post-processors are present exactly when audio is extracted: extraction first, with the configured codec and quality; metadata second when enabled; thumbnail embedding last, with `writethumbnail`, exactly for `mp3` and `m4a` |
| Configuration.GroupsKept | youtube_audio_downloader/core/config.py:157-203 | a later step that writes only its own keys keeps each earlier group of options as it was configured |
| Configuration.FetchOptions | youtube_audio_downloader/core/config.py:157-203 | the options built from the settings satisfy all the group properties above; `writeinfojson` copies its setting; and no key outside the known option keys appears |
| Configuration.WithOverrides | youtube_audio_downloader/core/config.py:205-207 | every override wins, every other option is kept, and the keys are exactly the union |
| Configuration.Config.constructor | youtube_audio_downloader/core/config.py:84 | a new store starts from a copy of the defaults |
| Configuration.Config.Load | youtube_audio_downloader/core/config.py:87-98 | the settings become the overlay of the file's object; a missing, unreadable or malformed file leaves them unchanged; a document that is not an object raises `AttributeError`; the key set is kept |
| Configuration.Config.Save | youtube_audio_downloader/core/config.py:100-107 | the file then holds the settings, stays as it was when it could not be opened, or is left malformed when writing broke off; an error is never raised |
| Configuration.Config.Get | youtube_audio_downloader/core/config.py:109-111 | a recognised key yields its setting, any other key the default |
| Configuration.Config.Set | youtube_audio_downloader/core/config.py:113-118 | a recognised key takes the value and nothing else changes; an unknown key raises `KeyError` and changes nothing |
| Configuration.Config.Update | youtube_audio_downloader/core/config.py:120-123 | the pairs are set in order up to the first unknown key, which raises `KeyError`; the pairs before it stay applied |
| Configuration.Config.Reset | youtube_audio_downloader/core/config.py:125-132 | no key restores all defaults; a recognised key restores only itself; an unknown key raises `KeyError` and changes nothing |
| Configuration.Config.GetFilenameTemplate | youtube_audio_downloader/core/config.py:141-145 | a non-empty name found in the template dictionary yields its template; an empty, missing or unknown name yields `filename_template`; a template setting that is not a dictionary never yields a named template |
| Configuration.Config.GetYdlOpts | youtube_audio_downloader/core/config.py:134-209 | an output directory that is not a string makes `Path` raise `TypeError`; otherwise the result is the options built from the settings with the overrides applied last, whose keys always include the unconditional ones and the overrides, and never anything else |
| Configuration.DefaultOptionsBuild | youtube_audio_downloader/core/config.py:134-158 | a store holding the defaults builds its options without raising |
| Configuration.Open | youtube_audio_downloader/core/config.py:69-98 | constructing a store loads the file over the defaults; when the load raises, no store comes into being |
| Configuration.DefaultTemplateLookup | youtube_audio_downloader/core/config.py:60-66 | with the defaults, `detailed` and `full` are found; an unknown or empty name, or none, falls back to `%(title)s` |
| ConfigManager.IsBoolWord | youtube_audio_downloader/cli/config_manager.py:47 | `value.lower() in ('true', 'false')`; `CoerceTrueWords`, `CoerceFalseWords` and `DigitsAreNotBoolWords` state what it accepts |
| ConfigManager.Coerce | youtube_audio_downloader/cli/config_manager.py:46-50 | `true` and `false`, in any letter case, become booleans; failing that, a non-empty digit string becomes its integer; anything else stays the same string |
| ConfigManager.DigitsAreNotBoolWords | youtube_audio_downloader/cli/config_manager.py:47-50 | the boolean test and the digit test never both apply |
| ConfigManager.CoerceDecimal | youtube_audio_downloader/cli/config_manager.py:49-50 | the decimal spelling of any natural number is read back as that number |
| ConfigManager.CoerceTrueWords | youtube_audio_downloader/cli/config_manager.py:47-48 | `true`, `TRUE` and `True` become `True` |
| ConfigManager.CoerceFalseWords | youtube_audio_downloader/cli/config_manager.py:47-48 | `false` and `FALSE` become `False` |
| ConfigManager.CoerceKeepsText | youtube_audio_downloader/cli/config_manager.py:46-50 | the empty string, `-5`, `1.5` and `yes` stay strings |
| ConfigManager.SetCommand | youtube_audio_downloader/cli/config_manager.py:41-57 | a recognised key stores the coerced value and the store is saved; an unknown key is reported, and neither the settings nor the file change |
| ConfigManager.ResetCommand | youtube_audio_downloader/cli/config_manager.py:60-75 | a non-empty key resets only itself and saves, or changes nothing when unknown; no key, or an empty one, resets everything and saves only when confirmed |
| Batch.Persist | youtube_audio_downloader/cli/batch.py:45-56 | the resume file after a save: the snapshot, the previous file when it could not be opened, or a corrupt file when writing broke off; `ResumeRoundTrip` states what a new processor then loads |
| Batch.ResumeLoaded | youtube_audio_downloader/cli/batch.py:27-43 | a new processor takes the stored snapshot, and starts empty when the resume file is missing, unreadable or corrupt |
| Batch.Cleared | youtube_audio_downloader/cli/batch.py:301-305 | `--clear-resume` deletes an existing resume file and empties both collections; otherwise nothing changes |
| Batch.ResumeRoundTrip | youtube_audio_downloader/cli/batch.py:34-56 | a snapshot written without error is loaded back exactly; one broken off is loaded as nothing; a write that could not open the file leaves the previous file |
| Batch.Keep | youtube_audio_downloader/cli/batch.py:80-87 | the three filters on a stripped line: not blank, not a `#` comment, a valid URL; `KeepIsValidUrl` reduces them to the last |
| Batch.LineEntry | youtube_audio_downloader/cli/batch.py:75-87 | what one line contributes: its stripped text with its 1-based number when kept, nothing otherwise |
| Batch.SelectUrls | youtube_audio_downloader/cli/batch.py:71-93 | the entries read from a file's lines, one per kept line in file order; characterised by `SelectUrlsSound`, `SelectUrlsComplete` and `SelectUrlsIncreasing` |
| Batch.KeepIsValidUrl | youtube_audio_downloader/cli/batch.py:80-84 | a stripped line is kept exactly when it is a valid URL, so the blank and comment filters never reject anything validation accepts |
| Batch.SelectUrlsSound | youtube_audio_downloader/cli/batch.py:71-93 | every entry read is a kept line: its number is the line's 1-based position, and its URL is the stripped line |
| Batch.SelectUrlsComplete | youtube_audio_downloader/cli/batch.py:71-93 | every kept line of the file is read, with its line number |
| Batch.SelectUrlsIncreasing | youtube_audio_downloader/cli/batch.py:75 | the entries come in file order |
| Batch.Attempt | youtube_audio_downloader/cli/batch.py:129-177 | the `try` block for one entry: the downloader is called; success counts and records the URL, failure or an exception counts and writes its failure record, an interrupt breaks the loop off; the `Step` lemmas state each field |
| Batch.SaveIfResuming | youtube_audio_downloader/cli/batch.py:160-162 | `if resume: self.save_resume_data()` after an attempted entry |
| Batch.Step | youtube_audio_downloader/cli/batch.py:118-180 | one iteration of the loop: skipped as a success when resuming over a processed URL, otherwise attempted and saved when resuming, nothing once broken off; the `Step` lemmas below state it field by field |
| Batch.Run | youtube_audio_downloader/cli/batch.py:113-182 | the loop over the first `k` entries; `ProcessUrls` is proved equal to it and the `Run` lemmas below state what it guarantees |
| Batch.RunAfterStop | youtube_audio_downloader/cli/batch.py:164-169 | after the loop is broken off, the remaining entries change nothing |
| Batch.StepInvokes | youtube_audio_downloader/cli/batch.py:118-145 | an iteration calls the downloader exactly when the loop is still running and the entry is not skipped |
| Batch.StepCounts | youtube_audio_downloader/cli/batch.py:120-123 | a skipped entry and a successful download each count as a success; a failure or an exception counts as a failure; an interrupt counts as neither |
| Batch.StepProcessed | youtube_audio_downloader/cli/batch.py:147-149 | only a successful download adds its URL to the processed set |
| Batch.StepFailed | youtube_audio_downloader/cli/batch.py:151-157 | only a failed download or an exception writes its URL's failure record, with the entry's line, the error text and the clock reading |
| Batch.StepStops | youtube_audio_downloader/cli/batch.py:164-169 | only an interrupt of the download breaks the loop off |
| Batch.StepSaves | youtube_audio_downloader/cli/batch.py:160-180 | in resume mode, every iteration that calls the downloader, the interrupted one included, ends by saving the updated collections; no other iteration writes the file |
| Batch.StepCounted | youtube_audio_downloader/cli/batch.py:118-180 | one iteration keeps the counting invariant one entry further |
| Batch.RunCounts | youtube_audio_downloader/cli/batch.py:113-182 | without an interrupt, successes plus failures equal the number of entries, and skips are among the successes; an interrupt at position `idx` comes from the downloader and leaves `idx - 1` entries counted; only an interrupt ends the loop early |
| Batch.StepInOrder | youtube_audio_downloader/cli/batch.py:118 | one iteration keeps the call order invariant |
| Batch.RunInvokedInOrder | youtube_audio_downloader/cli/batch.py:118 | the downloader is called in file order, at most once per entry |
| Batch.StepInvokedEvery | youtube_audio_downloader/cli/batch.py:118-145 | outside resume mode, one iteration calls the downloader for the next position |
| Batch.RunInvokesEvery | youtube_audio_downloader/cli/batch.py:118-145 | outside resume mode, every entry up to the interrupt is downloaded, in order, including URLs an earlier run processed |
| Batch.RunGrows | youtube_audio_downloader/cli/batch.py:147-176 | the processed set and the failed map only grow, and only by URLs of the batch |
| Batch.StepAvoidsProcessed | youtube_audio_downloader/cli/batch.py:120-123 | in resume mode, one iteration never downloads a URL that was processed at the start |
| Batch.RunResumeSkips | youtube_audio_downloader/cli/batch.py:120-123 | in resume mode, a URL that was processed when the run began is never downloaded again |
| Batch.StepInvokedUnprocessed | youtube_audio_downloader/cli/batch.py:120-145 | one iteration keeps the invariant that every reached entry with an unprocessed URL was downloaded |
| Batch.RunResumeRetries | youtube_audio_downloader/cli/batch.py:120-145 | in resume mode, every entry the loop reached whose URL is still unprocessed at the end was downloaded |
| Batch.RunSaves | youtube_audio_downloader/cli/batch.py:160-180 | resume data is saved after exactly the entries that were downloaded when resuming, and never otherwise; the file is untouched outside resume mode |
| Batch.RunPersisted | youtube_audio_downloader/cli/batch.py:45-56 | when resuming and every write succeeds, the file holds the final collections as soon as anything was saved |
| Batch.StepRecordsOutcomes | youtube_audio_downloader/cli/batch.py:147-176 | one iteration keeps every earlier outcome recorded |
| Batch.RunRecordsOutcomes | youtube_audio_downloader/cli/batch.py:147-176 | every downloaded URL is in the processed set, and every failed URL is in the failed map, even when a later download of it succeeded |
| Batch.StepLastFailureKept | youtube_audio_downloader/cli/batch.py:153-176 | one iteration keeps each URL's record equal to that of its last failure |
| Batch.RunLastFailureWins | youtube_audio_downloader/cli/batch.py:153-176 | the record kept for a URL is the one written by its last failed download |
| Batch.SkipCount | youtube_audio_downloader/cli/batch.py:317-318 | the skip notice never announces more skips than there are entries |
| Batch.RunSkipsAnnounced | youtube_audio_downloader/cli/batch.py:317-319 | a resume run that is not interrupted skips at least as many entries as the notice announced |
| Batch.RunOverProcessedSkipsAll | youtube_audio_downloader/cli/batch.py:118-123 | a resume run over URLs that are all processed calls the downloader for no entry, saves nothing, counts every entry as a skipped success and no failure, and leaves both collections and the file as they were |
| Batch.SecondRunSkipsFirst | youtube_audio_downloader/cli/batch.py:34-56 | after a resume run whose writes succeed, a new processor reloads its final collections, and a second resume run never downloads again what the first had processed |
| Batch.SecondRunDownloadsNothing | youtube_audio_downloader/cli/batch.py:34-56 | running a batch again is idempotent: after a resume run in which every download and every write succeeded, a new processor running the same batch in resume mode downloads nothing, writes nothing, and counts every entry as a success |
| Batch.BatchProcessor.constructor | youtube_audio_downloader/cli/batch.py:27-32 | a new processor is empty and then loaded from its resume file |
| Batch.BatchProcessor.LoadResumeData | youtube_audio_downloader/cli/batch.py:34-43 | a stored snapshot replaces both collections; a missing, unreadable or corrupt file changes nothing |
| Batch.BatchProcessor.SaveResumeData | youtube_audio_downloader/cli/batch.py:45-56 | the file receives the snapshot, stays as it was, or is left corrupt; the error is swallowed and the collections never change |
| Batch.BatchProcessor.ReadUrlsFromFile | youtube_audio_downloader/cli/batch.py:58-93 | the loop over the lines returns exactly the kept lines, as described by the three `SelectUrls` lemmas |
| Batch.BatchProcessor.ProcessUrls | youtube_audio_downloader/cli/batch.py:95-182 | the loop's counters, collections, resume file, download calls and saves are those of `Run` over all entries, so every `Run` lemma holds of it |
| Batch.ClearResume | youtube_audio_downloader/cli/batch.py:301-305 | the processor's state becomes the cleared state |
| Batch.RunBatch | youtube_audio_downloader/cli/batch.py:297-388 | an unreadable input file, or one without a valid URL, ends with status 1 before anything is downloaded; otherwise the status is 0 exactly when no download failed, the summary gives the entry count and both counters, and the skip notice appears in resume mode when the loaded set is not empty |
| Batch.InterruptedRunExitsZero | youtube_audio_downloader/cli/batch.py:164-169 | a batch interrupted at its first entry has no failures, so it ends with status 0 |

## Left out

- Terminal output: the messages printed with `click.echo` and `print`, the
  progress display, and the option parsing done by `click` are not modelled.
  Choices the user makes interactively, such as the reset confirmation,
  are parameters.
- The downloader (`download_audio`, in `core/downloader.py`) is not part of
  this model. It is a function parameter returning a `Response`. Inside its
  own `try` block that function catches `KeyboardInterrupt` and every
  exception and returns `False`. Before that block it creates the output
  directory and builds the options, so an `OSError` there, or any other
  exception, escapes to the batch loop's `except Exception`; `Raised`
  stands for such an exception, and `Interrupted` for an interrupt that
  arrives outside the downloader's `try`. An interrupt raised by the `echo`
  calls or by the save inside the loop's `try` block is not modelled.
- Timestamps: the failure timestamp and the resume file's `last_updated`
  value come from a clock parameter. `last_updated` is not stored, and the
  run duration is not modelled.
- The report file written by `--report`, and the list of failed URLs
  printed at the end, are output only and are not modelled.
- The `--skip-existing` flag only prints a message in the source, and the
  output directory, quality, format, video and playlist options are only
  forwarded to the downloader, so none of them is modelled.
- File system:
  - A file is its parsed contents: a `ResumeFile` or `ConfigFile` value.
  - The home directory is written `~` in the default output directory.
  - The resume file path and the directory creation in the two
    constructors are not modelled.
  - The directory creation in `get_output_path`, and the `OSError` it can
    raise, are not modelled, and
    `outtmpl` is the pair of directory and template instead of the joined
    path string.
  - A failure to delete the resume file under `--clear-resume`, which the
    source does not catch, is not modelled.
- Batch.ReadUrlsFromFile: the input file is given as its list of lines.
  Reading is all or nothing, and a read error is handled by `RunBatch` with
  status 1. A decoding error that the source does not catch is not
  modelled, and neither is a line ending other than a newline.
- Batch.ResumeLoaded: a resume file is either unparsable or a snapshot
  with both keys. A JSON document of another shape, such as a list, or one
  missing `processed` or `failed`, is not modelled.
- Batch.ResumeLoaded: a resume file whose bytes are not valid text makes
  `json.load` raise `UnicodeDecodeError`. `load_resume_data` does not catch
  that error, so constructing the processor fails. The model has no such
  file: a resume file that cannot be parsed is `Corrupt` and is ignored.
- Configuration.Config.Load: a configuration file whose bytes are not valid
  text makes `json.load` raise `UnicodeDecodeError`. `load` does not catch
  that error, so constructing the store fails. The model has no such file:
  a configuration file that cannot be parsed is `Malformed` and is ignored.
- Text.IsDigitString, Text.ParseInt: `isdigit` and `int` are modelled on
  ASCII digits. The non-ASCII digits, the surrounding whitespace and the
  underscores that Python's `int` also accepts are not modelled.
- Text.AsciiLower: `lower` is modelled on ASCII letters. For the only use,
  the comparison with `true` and `false`, no other character lowers to one
  of those letters.
- Py.Value: JSON floating-point numbers are not modelled.
- Dictionary order: settings and options are maps, so the order of keys in
  a saved file or an option dictionary is not modelled. The load loop is
  proved for any order of the entries.
- Configuration.Config.Update: the updates are a sequence of pairs. This is
  a dictionary's `items()` in order, and also allows repeated keys.
- Configuration.Config.GetYdlOpts: the option dictionary the source builds
  step by step is local to the call. It is modelled as the composition of
  the step functions `CoreOptions`, `RangeOptions` and `AudioOptions`,
  applied in the source's order, and not as a method that mutates a local
  map.
- The other configuration operations (`get_output_path`, `__repr__`) and
  the other commands of `cli/config_manager.py` (`show`, `templates`,
  `path`) are display or file-system helpers outside this model.
- `cli/download.py` and `utils/progress.py` only drive the downloader and
  print progress; they are not part of this model.
