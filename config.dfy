/** The configuration store of `core/config.py`: a dictionary of settings
    whose key set is fixed by the defaults, loaded from and saved to a JSON
    file, and turned into the option dictionary handed to the media fetcher. */
module Configuration {
  import opened Py

  /** The default output directory; the user's home directory is written `~`. */
  const DefaultOutputDirectory := "~/dev/music_rip/outputs"

  const DefaultFilenameTemplates: map<string, Value> := map[
    "default" := Str("%(title)s"),
    "detailed" := Str("%(title)s - %(uploader)s"),
    "dated" := Str("%(upload_date)s - %(title)s"),
    "playlist" := Str("%(playlist_index)s - %(title)s"),
    "full" := Str("%(uploader)s - %(title)s [%(id)s]")
  ]

  /** `Config.DEFAULTS`: every recognised key with its default value. */
  const Defaults: map<string, Value> := map[
    "output_directory" := Str(DefaultOutputDirectory),
    "create_output_dir" := Bool(true),
    "audio_quality" := Str("192"),
    "audio_format" := Str("mp3"),
    "keep_video" := Bool(false),
    "filename_template" := Str("%(title)s"),
    "sanitize_filenames" := Bool(true),
    "restrict_filenames" := Bool(false),
    "download_playlists" := Bool(false),
    "playlist_start" := Int(1),
    "playlist_end" := Null,
    "playlist_items" := Null,
    "overwrite_existing" := Bool(false),
    "continue_on_error" := Bool(true),
    "quiet_mode" := Bool(false),
    "verbose_mode" := Bool(false),
    "concurrent_downloads" := Int(1),
    "rate_limit" := Null,
    "retries" := Int(3),
    "embed_metadata" := Bool(true),
    "embed_thumbnail" := Bool(true),
    "write_info_json" := Bool(false),
    "extract_audio" := Bool(true),
    "audio_post_processor" := Str("ffmpeg"),
    "filename_templates" := Dict(DefaultFilenameTemplates)
  ]

  /** What `load` finds at the configuration path: no file, a file that
      cannot be read, a file that is not JSON, or a parsed JSON document. */
  datatype ConfigFile = Missing | Unreadable | Malformed | Document(doc: Value)

  /** A parsed document whose top level is not a JSON object makes `load`
      call `.items()` on a list, string or number: the `AttributeError` is
      not caught. */
  predicate LoadRaises(file: ConfigFile) {
    file.Document? && !file.doc.Dict?
  }

  /** `base` with the entries of `entries` whose keys are in `keys` copied over it. */
  function Overlay(base: map<string, Value>, entries: map<string, Value>, keys: set<string>): (r: map<string, Value>)
    ensures r.Keys == base.Keys + entries.Keys * keys
    ensures forall k :: k in r ==> r[k] == if k in entries && k in keys then entries[k] else base[k]
  {
    base + map k | k in entries && k in keys :: entries[k]
  }

  /** The settings after `load` has read `file` over `settings`, when it
      does not raise: recognised keys are overwritten, unknown keys ignored,
      and a missing, unreadable or malformed file changes nothing. */
  function Loaded(settings: map<string, Value>, file: ConfigFile): map<string, Value> {
    if file.Document? && file.doc.Dict? then Overlay(settings, file.doc.entries, Defaults.Keys) else settings
  }

  /** The configuration file after `save` has tried to write `settings`. */
  function Saved(file: ConfigFile, settings: map<string, Value>, io: IoResult): ConfigFile {
    match io
    case IoOk => Document(Dict(settings))
    case OpenFailed => file
    case WriteFailed => Malformed
  }

  /** The loop of `load`: walks the entries of the loaded object in any order
      and copies over `settings` each whose key is in `keys`. */
  method CopyRecognised(settings: map<string, Value>, entries: map<string, Value>, keys: set<string>)
    returns (r: map<string, Value>)
    ensures r == Overlay(settings, entries, keys)
  {
    r := settings;
    var pending := entries.Keys;
    while pending != {}
      invariant pending <= entries.Keys
      invariant r.Keys == settings.Keys + (entries.Keys - pending) * keys
      invariant forall k :: k in r ==> r[k] == if k in entries && k !in pending && k in keys then entries[k] else settings[k]
      decreases pending
    {
      var key :| key in pending;
      if key in keys {
        r := r[key := entries[key]];
      }
      pending := pending - {key};
    }
  }

  /** Loading never changes the key set. */
  lemma LoadKeepsKeys(settings: map<string, Value>, file: ConfigFile)
    requires settings.Keys == Defaults.Keys
    ensures Loaded(settings, file).Keys == Defaults.Keys
  {
  }

  /** Loading ignores every unknown key: a document made only of unknown keys
      changes nothing, and each recognised key takes the document's value. */
  lemma LoadIgnoresUnknownKeys(settings: map<string, Value>, entries: map<string, Value>, k: string)
    requires settings.Keys == Defaults.Keys
    ensures k !in entries || k !in Defaults ==>
      (k in settings ==> Loaded(settings, Document(Dict(entries)))[k] == settings[k])
    ensures k in entries && k in Defaults ==>
      Loaded(settings, Document(Dict(entries)))[k] == entries[k]
  {
  }

  /** Saving successfully and loading again restores the settings, whatever
      was in the store before; a save that broke off leaves a file whose load
      changes nothing. */
  lemma {:induction false} SaveLoadRoundTrip(before: map<string, Value>, settings: map<string, Value>, file: ConfigFile)
    requires before.Keys == Defaults.Keys && settings.Keys == Defaults.Keys
    ensures Loaded(before, Saved(file, settings, IoOk)) == settings
    ensures Loaded(before, Saved(file, settings, WriteFailed)) == before
  {
    var loaded := Loaded(before, Saved(file, settings, IoOk));
    assert loaded.Keys == settings.Keys;
  }

  /** The index of the first entry of `updates` whose key is not recognised,
      or `|updates|` when there is none. */
  function FirstUnknown(updates: seq<(string, Value)>): (n: nat)
    ensures n <= |updates|
    ensures forall i :: 0 <= i < n ==> updates[i].0 in Defaults
    ensures n < |updates| ==> updates[n].0 !in Defaults
  {
    if |updates| == 0 then 0
    else if updates[0].0 !in Defaults then 0
    else 1 + FirstUnknown(updates[1..])
  }

  /** Setting each pair of `updates` in turn on `settings`. */
  function ApplyAll(settings: map<string, Value>, updates: seq<(string, Value)>): map<string, Value>
    decreases |updates|
  {
    if |updates| == 0 then settings
    else ApplyAll(settings, updates[..|updates| - 1])[updates[|updates| - 1].0 := updates[|updates| - 1].1]
  }

  /** Setting only recognised keys keeps the key set. */
  lemma {:induction false} ApplyAllKeepsKeys(settings: map<string, Value>, updates: seq<(string, Value)>)
    requires settings.Keys == Defaults.Keys
    requires forall i :: 0 <= i < |updates| ==> updates[i].0 in Defaults
    ensures ApplyAll(settings, updates).Keys == Defaults.Keys
  {
    if |updates| > 0 {
      ApplyAllKeepsKeys(settings, updates[..|updates| - 1]);
    }
  }

  /** The last write wins: after the updates, a key holds the value of its
      last occurrence, or its old value when it does not occur. */
  lemma {:induction false} ApplyAllLastWins(settings: map<string, Value>, updates: seq<(string, Value)>, k: string)
    requires k in settings
    ensures k in ApplyAll(settings, updates)
    ensures (forall i :: 0 <= i < |updates| ==> updates[i].0 != k) ==>
      ApplyAll(settings, updates)[k] == settings[k]
    ensures forall i ::
      (0 <= i < |updates| && updates[i].0 == k && (forall j :: i < j < |updates| ==> updates[j].0 != k)) ==>
      ApplyAll(settings, updates)[k] == updates[i].1
  {
    if |updates| > 0 {
      var front := updates[..|updates| - 1];
      ApplyAllLastWins(settings, front, k);
      assert forall i :: 0 <= i < |front| ==> front[i] == updates[i];
    }
  }

  /** The audio formats into which `get_ydl_opts` embeds the thumbnail. */
  const ThumbnailFormats: seq<Value> := [Str("mp3"), Str("m4a")]

  /** One entry of the `postprocessors` list handed to the media fetcher. */
  datatype PostProcessor =
    | FFmpegExtractAudio(preferredCodec: Value, preferredQuality: Value)
    | FFmpegMetadata
    | EmbedThumbnail

  /** A value of the media-fetcher option dictionary: a copied setting, the
      output template `str(Path(directory) / f"{template}.%(ext)s")`, or the
      ordered post-processor list. */
  datatype FetchOption =
    | Plain(value: Value)
    | OutputTemplate(directory: Value, template: Value)
    | PostProcessors(steps: seq<PostProcessor>)

  /** The settings `get_ydl_opts` reads. */
  predicate HasFetchSettings(s: map<string, Value>) {
    && "output_directory" in s && "filename_template" in s
    && "quiet_mode" in s && "verbose_mode" in s && "continue_on_error" in s && "retries" in s
    && "overwrite_existing" in s && "restrict_filenames" in s && "download_playlists" in s
    && "rate_limit" in s && "playlist_start" in s && "playlist_end" in s && "playlist_items" in s
    && "extract_audio" in s && "audio_format" in s && "audio_quality" in s
    && "embed_metadata" in s && "embed_thumbnail" in s && "write_info_json" in s
  }

  /** Every setting `get_ydl_opts` reads is a recognised key. */
  lemma RecognisedFetchSettings(s: map<string, Value>)
    requires s.Keys == Defaults.Keys
    ensures HasFetchSettings(s)
  {
  }

  /** The options `get_ydl_opts` writes first, unconditionally. */
  const CoreKeys: set<string> := {
    "outtmpl", "quiet", "verbose", "ignoreerrors", "retries", "overwrites", "restrictfilenames", "noplaylist"
  }
  /** The options written only when their setting is truthy. */
  const RangeKeys: set<string> := {"ratelimit", "playliststart", "playlistend", "playlist_items"}
  /** The options written only when audio is extracted. */
  const AudioKeys: set<string> := {"postprocessors", "writethumbnail"}

  /** The option keys `get_ydl_opts` always sets. */
  const AlwaysSet: set<string> := CoreKeys + {"writeinfojson"}
  /** The option keys `get_ydl_opts` sets depending on the settings. */
  const SometimesSet: set<string> := RangeKeys + AudioKeys

  /** The four groups of option keys are pairwise disjoint. */
  lemma KeyGroupsDisjoint()
    ensures CoreKeys !! RangeKeys && CoreKeys !! AudioKeys && RangeKeys !! AudioKeys
    ensures "writeinfojson" !in CoreKeys + RangeKeys + AudioKeys
  {
  }

  /** `key` is present in `opts` and holds `v`. */
  predicate Holds(opts: map<string, FetchOption>, key: string, v: FetchOption) {
    key in opts && opts[key] == v
  }

  /** `key` is present exactly when `setting` is truthy, and then holds it. */
  predicate SetWhenTruthy(opts: map<string, FetchOption>, key: string, setting: Value) {
    (key in opts <==> Truthy(setting)) && (key in opts ==> opts[key] == Plain(setting))
  }

  /** `opts` and `r` agree on every key outside `keys`. */
  ghost predicate AgreeOutside(opts: map<string, FetchOption>, r: map<string, FetchOption>, keys: set<string>) {
    forall k :: k !in keys ==> (k in r <==> k in opts) && (k in r ==> r[k] == opts[k])
  }

  /** `if setting: opts[key] = setting`. */
  function WhenTruthy(opts: map<string, FetchOption>, key: string, setting: Value): (r: map<string, FetchOption>)
    ensures key !in opts ==> SetWhenTruthy(r, key, setting)
    ensures AgreeOutside(opts, r, {key}) && r.Keys <= opts.Keys + {key}
  {
    if Truthy(setting) then opts[key := Plain(setting)] else opts
  }

  /** The unconditional options copy their settings; `outtmpl` joins the
      output directory with the default filename template and `noplaylist`
      negates the playlist setting. */
  predicate CoreConfigured(opts: map<string, FetchOption>, s: map<string, Value>)
    requires HasFetchSettings(s)
  {
    && Holds(opts, "outtmpl", OutputTemplate(s["output_directory"], s["filename_template"]))
    && Holds(opts, "quiet", Plain(s["quiet_mode"]))
    && Holds(opts, "verbose", Plain(s["verbose_mode"]))
    && Holds(opts, "ignoreerrors", Plain(s["continue_on_error"]))
    && Holds(opts, "retries", Plain(s["retries"]))
    && Holds(opts, "overwrites", Plain(s["overwrite_existing"]))
    && Holds(opts, "restrictfilenames", Plain(s["restrict_filenames"]))
    && Holds(opts, "noplaylist", Plain(Bool(!Truthy(s["download_playlists"]))))
  }

  /** The first options `get_ydl_opts` writes. */
  function CoreOptions(s: map<string, Value>): (opts: map<string, FetchOption>)
    requires HasFetchSettings(s)
    ensures CoreConfigured(opts, s) && opts.Keys == CoreKeys
  {
    map[
      "outtmpl" := OutputTemplate(s["output_directory"], s["filename_template"]),
      "quiet" := Plain(s["quiet_mode"]),
      "verbose" := Plain(s["verbose_mode"]),
      "ignoreerrors" := Plain(s["continue_on_error"]),
      "retries" := Plain(s["retries"]),
      "overwrites" := Plain(s["overwrite_existing"]),
      "restrictfilenames" := Plain(s["restrict_filenames"]),
      "noplaylist" := Plain(Bool(!Truthy(s["download_playlists"])))
    ]
  }

  /** The rate limit and the playlist range are each passed on exactly when
      their setting is truthy. */
  predicate RangeConfigured(opts: map<string, FetchOption>, s: map<string, Value>)
    requires HasFetchSettings(s)
  {
    && SetWhenTruthy(opts, "ratelimit", s["rate_limit"])
    && SetWhenTruthy(opts, "playliststart", s["playlist_start"])
    && SetWhenTruthy(opts, "playlistend", s["playlist_end"])
    && SetWhenTruthy(opts, "playlist_items", s["playlist_items"])
  }

  /** The rate-limit and playlist-range options; no other option changes. */
  function RangeOptions(opts: map<string, FetchOption>, s: map<string, Value>): (r: map<string, FetchOption>)
    requires HasFetchSettings(s)
    ensures opts.Keys !! RangeKeys ==> RangeConfigured(r, s)
    ensures AgreeOutside(opts, r, RangeKeys) && r.Keys <= opts.Keys + RangeKeys
  {
    var limited := WhenTruthy(opts, "ratelimit", s["rate_limit"]);
    var started := WhenTruthy(limited, "playliststart", s["playlist_start"]);
    var ended := WhenTruthy(started, "playlistend", s["playlist_end"]);
    WhenTruthy(ended, "playlist_items", s["playlist_items"])
  }

  /** The thumbnail is embedded when asked for and the format supports it. */
  predicate EmbedsThumbnail(s: map<string, Value>)
    requires HasFetchSettings(s)
  {
    Truthy(s["embed_thumbnail"]) && s["audio_format"] in ThumbnailFormats
  }

  /** The `postprocessors` list in the order `get_ydl_opts` appends it. */
  function PostProcessorSteps(s: map<string, Value>): seq<PostProcessor>
    requires HasFetchSettings(s)
  {
    [FFmpegExtractAudio(s["audio_format"], s["audio_quality"])]
    + (if Truthy(s["embed_metadata"]) then [FFmpegMetadata] else [])
    + (if EmbedsThumbnail(s) then [EmbedThumbnail] else [])
  }

  /** Post-processing is configured exactly when audio is extracted: the
      extraction step comes first with the configured codec and quality,
      metadata embedding follows when enabled, and thumbnail embedding comes
      last, together with `writethumbnail`, exactly for `mp3` and `m4a`. */
  predicate AudioConfigured(opts: map<string, FetchOption>, s: map<string, Value>)
    requires HasFetchSettings(s)
  {
    var extract := Truthy(s["extract_audio"]);
    var metadata := Truthy(s["embed_metadata"]);
    var thumbnail := Truthy(s["embed_thumbnail"]) && (s["audio_format"] == Str("mp3") || s["audio_format"] == Str("m4a"));
    && ("postprocessors" in opts <==> extract)
    && ("writethumbnail" in opts <==> extract && thumbnail)
    && ("writethumbnail" in opts ==> opts["writethumbnail"] == Plain(Bool(true)))
    && (extract ==>
          && opts["postprocessors"].PostProcessors?
          && var steps := opts["postprocessors"].steps;
          && |steps| == 1 + (if metadata then 1 else 0) + (if thumbnail then 1 else 0)
          && steps[0] == FFmpegExtractAudio(s["audio_format"], s["audio_quality"])
          && (FFmpegMetadata in steps <==> metadata)
          && (metadata ==> steps[1] == FFmpegMetadata)
          && (EmbedThumbnail in steps <==> thumbnail)
          && (thumbnail ==> steps[|steps| - 1] == EmbedThumbnail))
  }

  /** The audio post-processing options; no other option changes. */
  function AudioOptions(opts: map<string, FetchOption>, s: map<string, Value>): (r: map<string, FetchOption>)
    requires HasFetchSettings(s)
    ensures opts.Keys !! AudioKeys ==> AudioConfigured(r, s)
    ensures AgreeOutside(opts, r, AudioKeys) && r.Keys <= opts.Keys + AudioKeys
  {
    if !Truthy(s["extract_audio"]) then opts
    else
      var processed := opts["postprocessors" := PostProcessors(PostProcessorSteps(s))];
      if EmbedsThumbnail(s) then processed["writethumbnail" := Plain(Bool(true))] else processed
  }

  /** Changing only options in `keys` keeps each group of options outside
      `keys` configured. */
  lemma GroupsKept(a: map<string, FetchOption>, b: map<string, FetchOption>, keys: set<string>, s: map<string, Value>)
    requires HasFetchSettings(s) && AgreeOutside(a, b, keys)
    ensures CoreConfigured(a, s) && keys !! CoreKeys ==> CoreConfigured(b, s)
    ensures RangeConfigured(a, s) && keys !! RangeKeys ==> RangeConfigured(b, s)
    ensures AudioConfigured(a, s) && keys !! AudioKeys ==> AudioConfigured(b, s)
  {
    if keys !! CoreKeys {
      assert "outtmpl" in CoreKeys && "quiet" in CoreKeys && "verbose" in CoreKeys && "ignoreerrors" in CoreKeys;
      assert "retries" in CoreKeys && "overwrites" in CoreKeys && "restrictfilenames" in CoreKeys && "noplaylist" in CoreKeys;
    }
    if keys !! RangeKeys {
      assert "ratelimit" in RangeKeys && "playliststart" in RangeKeys && "playlistend" in RangeKeys && "playlist_items" in RangeKeys;
    }
    if keys !! AudioKeys {
      assert "postprocessors" in AudioKeys && "writethumbnail" in AudioKeys;
    }
  }

  /** The options `get_ydl_opts` builds from the settings `s`, before the
      overrides are applied: the unconditional options, the range options,
      the audio options and `writeinfojson`, and no option outside those. */
  function FetchOptions(s: map<string, Value>): (opts: map<string, FetchOption>)
    requires HasFetchSettings(s)
    ensures CoreConfigured(opts, s) && RangeConfigured(opts, s) && AudioConfigured(opts, s)
    ensures Holds(opts, "writeinfojson", Plain(s["write_info_json"]))
    ensures AlwaysSet <= opts.Keys <= AlwaysSet + SometimesSet
  {
    KeyGroupsDisjoint();
    var core := CoreOptions(s);
    var ranged := RangeOptions(core, s);
    GroupsKept(core, ranged, RangeKeys, s);
    var audio := AudioOptions(ranged, s);
    GroupsKept(ranged, audio, AudioKeys, s);
    var opts := audio["writeinfojson" := Plain(s["write_info_json"])];
    assert AgreeOutside(audio, opts, {"writeinfojson"});
    GroupsKept(audio, opts, {"writeinfojson"}, s);
    opts
  }

  /** The overrides as a dictionary: none given is the empty one. */
  function Given(overrides: Option<map<string, Value>>): map<string, Value> {
    if overrides.Some? then overrides.value else map[]
  }

  /** `if overrides: opts.update(overrides)`: every override wins, every
      other option is kept, and nothing else is added. */
  function WithOverrides(opts: map<string, FetchOption>, overrides: Option<map<string, Value>>): (r: map<string, FetchOption>)
    ensures r.Keys == opts.Keys + Given(overrides).Keys
    ensures forall k :: k in Given(overrides) ==> r[k] == Plain(Given(overrides)[k])
    ensures forall k :: k in opts && k !in Given(overrides) ==> r[k] == opts[k]
  {
    if overrides.Some? && overrides.value != map[] then
      opts + map k | k in overrides.value :: Plain(overrides.value[k])
    else opts
  }

  class Config {
    /** `_config`: the current settings. */
    var settings: map<string, Value>
    /** The contents of the file at `config_path`. */
    var file: ConfigFile

    /** The settings always cover exactly the recognised keys. */
    ghost predicate Valid()
      reads this
    {
      settings.Keys == Defaults.Keys
    }

    /** `self._config = self.DEFAULTS.copy()`, with the file at the
        configuration path. */
    constructor (file: ConfigFile)
      ensures Valid() && settings == Defaults && this.file == file
    {
      settings := Defaults;
      this.file := file;
    }

    /** `load`: copies every recognised key of the file's object into the
        settings, in the object's order, and ignores the others. A missing,
        unreadable or malformed file leaves the settings as they were (with a
        warning); a document that is not an object raises. */
    method Load() returns (r: Outcome<PyError>)
      requires Valid()
      modifies this`settings
      ensures Valid()
      ensures r == (if LoadRaises(file) then Fail(AttributeError) else Pass)
      ensures settings == Loaded(old(settings), file)
    {
      r := Pass;
      if file.Document? {
        if !file.doc.Dict? {
          return Fail(AttributeError);
        }
        settings := CopyRecognised(settings, file.doc.entries, Defaults.Keys);
      }
    }

    /** `save`: writes the settings to the file; an I/O error is reported and
        swallowed. */
    method Save(io: IoResult)
      modifies this`file
      ensures file == Saved(old(file), settings, io)
    {
      file := Saved(file, settings, io);
    }

    /** `get(key, default)`: a recognised key yields its setting, any other
        key the default. */
    function Get(key: string, default: Value): (v: Value)
      reads this
      requires Valid()
      ensures key in Defaults ==> v == settings[key]
      ensures key !in Defaults ==> v == default
    {
      if key in settings then settings[key] else default
    }

    /** `set(key, value)`: a recognised key takes the value and nothing else
        changes; an unknown key raises `KeyError` and changes nothing. */
    method Set(key: string, value: Value) returns (r: Outcome<PyError>)
      requires Valid()
      modifies this`settings
      ensures Valid()
      ensures key in Defaults ==> r == Pass && settings == old(settings)[key := value]
      ensures key !in Defaults ==> r == Fail(KeyError(key)) && settings == old(settings)
    {
      if key in Defaults {
        settings := settings[key := value];
        r := Pass;
      } else {
        r := Fail(KeyError(key));
      }
    }

    /** `update(updates)`: sets the pairs in order; the first unknown key
        raises, and the pairs before it stay applied. */
    method Update(updates: seq<(string, Value)>) returns (r: Outcome<PyError>)
      requires Valid()
      modifies this`settings
      ensures Valid()
      ensures settings == ApplyAll(old(settings), updates[..FirstUnknown(updates)])
      ensures r == if FirstUnknown(updates) < |updates|
        then Fail(KeyError(updates[FirstUnknown(updates)].0)) else Pass
    {
      var i := 0;
      while i < |updates|
        invariant 0 <= i <= FirstUnknown(updates)
        invariant Valid()
        invariant settings == ApplyAll(old(settings), updates[..i])
      {
        var outcome := Set(updates[i].0, updates[i].1);
        if outcome.Fail? {
          return outcome;
        }
        assert updates[..i + 1][..i] == updates[..i];
        i := i + 1;
      }
      assert updates[..i] == updates;
      r := Pass;
    }

    /** `reset()` restores every default; `reset(key)` restores only `key`;
        an unknown key raises `KeyError` and changes nothing. */
    method Reset(key: Option<string>) returns (r: Outcome<PyError>)
      requires Valid()
      modifies this`settings
      ensures Valid()
      ensures key.None? ==> r == Pass && settings == Defaults
      ensures key.Some? && key.value in Defaults ==>
        r == Pass && settings == old(settings)[key.value := Defaults[key.value]]
      ensures key.Some? && key.value !in Defaults ==>
        r == Fail(KeyError(key.value)) && settings == old(settings)
    {
      match key
      case None =>
        settings := Defaults;
        r := Pass;
      case Some(k) =>
        if k in Defaults {
          settings := settings[k := Defaults[k]];
          r := Pass;
        } else {
          r := Fail(KeyError(k));
        }
    }

    /** `get_filename_template(name)`: the named template when `name` is
        non-empty and a key of the `filename_templates` dictionary, otherwise
        `filename_template`. A `filename_templates` setting that is not a
        dictionary never yields a template: it either falls back or raises
        `TypeError` from the membership test or the subscript. */
    function GetFilenameTemplate(name: Option<string>): (r: Result<Value, PyError>)
      reads this
      requires Valid()
      ensures (name.None? || name.value == "") ==> r == Ok(settings["filename_template"])
      ensures name.Some? && name.value != "" && settings["filename_templates"].Dict? ==>
        r == Ok(var templates := settings["filename_templates"].entries;
                if name.value in templates then templates[name.value] else settings["filename_template"])
      ensures !settings["filename_templates"].Dict? && r.Ok? ==> r.value == settings["filename_template"]
    {
      var fallback := settings["filename_template"];
      if name.None? || name.value == "" then Ok(fallback)
      else
        match ContainsName(settings["filename_templates"], name.value)
        case Err(e) => Err(e)
        case Ok(found) => if found then Subscript(settings["filename_templates"], name.value) else Ok(fallback)
    }

    /** `get_ydl_opts(overrides)`: the options built from the settings, with
        the overrides applied last. `get_output_path` wraps the output
        directory in a `Path`, which raises `TypeError` unless the setting is
        a string. The dictionary Python builds step by step is local to the
        call, so each step is one of the option functions above, applied in
        the source's order. */
    function GetYdlOpts(overrides: Option<map<string, Value>>): (r: Result<map<string, FetchOption>, PyError>)
      reads this
      requires Valid()
      ensures HasFetchSettings(settings)
      ensures r.Err? <==> !settings["output_directory"].Str?
      ensures r.Err? ==> r.error == TypeError
      ensures r.Ok? ==>
        var opts := r.value;
        && opts.Keys == FetchOptions(settings).Keys + Given(overrides).Keys
        && AlwaysSet + Given(overrides).Keys <= opts.Keys <= AlwaysSet + SometimesSet + Given(overrides).Keys
        && (forall k :: k in Given(overrides) ==> opts[k] == Plain(Given(overrides)[k]))
        && (forall k :: k in opts && k !in Given(overrides) ==> opts[k] == FetchOptions(settings)[k])
    {
      RecognisedFetchSettings(settings);
      if !settings["output_directory"].Str? then Err(TypeError)
      else Ok(WithOverrides(FetchOptions(settings), overrides))
    }
  }

  /** `Config(config_path)`: starts from the defaults and loads the file; when
      loading raises, no configuration object comes into being. */
  method Open(file: ConfigFile) returns (r: Result<Config, PyError>)
    ensures r.Err? <==> LoadRaises(file)
    ensures r.Err? ==> r.error == AttributeError
    ensures r.Ok? ==>
      fresh(r.value) && r.value.Valid() && r.value.file == file && r.value.settings == Loaded(Defaults, file)
  {
    var config := new Config(file);
    var outcome := config.Load();
    if outcome.Fail? {
      return Err(outcome.error);
    }
    r := Ok(config);
  }

  /** With the default settings, each named template is found, and an unknown
      or empty name falls back to `%(title)s`. */
  lemma DefaultTemplateLookup(config: Config)
    requires config.Valid() && config.settings == Defaults
    ensures config.GetFilenameTemplate(Some("detailed")) == Ok(Str("%(title)s - %(uploader)s"))
    ensures config.GetFilenameTemplate(Some("full")) == Ok(Str("%(uploader)s - %(title)s [%(id)s]"))
    ensures config.GetFilenameTemplate(Some("karaoke")) == Ok(Str("%(title)s"))
    ensures config.GetFilenameTemplate(Some("")) == Ok(Str("%(title)s"))
    ensures config.GetFilenameTemplate(None) == Ok(Str("%(title)s"))
  {
  }

  /** The defaults name the output directory by a string, so a store fresh
      from the defaults builds its options without raising. */
  lemma DefaultOptionsBuild(config: Config, overrides: Option<map<string, Value>>)
    requires config.Valid() && config.settings == Defaults
    ensures config.GetYdlOpts(overrides).Ok?
  {
    assert Defaults["output_directory"].Str?;
  }
}
