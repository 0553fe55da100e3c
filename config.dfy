/** The configuration: the default settings, `Config.load` (defaults merged
    with the stored file) and `Config.update` (only non-None overrides are
    applied; a run that asks for a video format is not persisted). */
module Config {
  import opened Values

  const Defaults: Settings := map[
    "format" := Str("flac"),
    "quality" := Str("best"),
    "output_dir" := Str("./downloads"),
    "output_template" := Str("%(title)s.%(ext)s"),
    "organize_by_source" := Bool(false),
    "embed_metadata" := Bool(true),
    "embed_thumbnail" := Bool(true),
    "embed_source_url" := Bool(true),
    "embed_playlist_url" := Bool(true),
    "naming_scheme" := Str("title"),
    "number_padding" := Int(3),
    "archive_file" := Null,
    "rate_limit" := Null,
    "retries" := Int(3),
    "geo_bypass" := Bool(true),
    "prefer_free_formats" := Bool(false)
  ]

  /** Every default key is present, so indexing a default key never fails. */
  predicate HasDefaults(m: Settings) {
    Defaults.Keys <= m.Keys
  }

  /** `Config.load`. `stored` is the object the configuration file holds, or
      None when the file is missing, unreadable, not JSON or not an object
      (each of these falls back to the defaults). */
  function Load(stored: Option<Settings>): (r: Settings)
    ensures HasDefaults(r)
    ensures r.Keys == Defaults.Keys + (if stored.Some? then stored.value.Keys else {})
    ensures stored.Some? ==> forall k :: k in stored.value ==> r[k] == stored.value[k]
    ensures forall k :: k in Defaults && (stored.None? || k !in stored.value) ==> r[k] == Defaults[k]
  {
    if stored.Some? then Defaults + stored.value else Defaults
  }

  /** The formats `update` treats as transient. */
  const VideoFormats: set<string> := {"mp4", "mkv", "webm", "avi"}

  /** The keyword arguments of `update(**kwargs)` in call order; `None` is
      Python's `None`. */
  type Overrides = seq<(string, Option<Value>)>

  /** Keyword arguments never repeat a name. */
  predicate DistinctKeys(ov: Overrides) {
    forall i, j :: 0 <= i < j < |ov| ==> ov[i].0 != ov[j].0
  }

  /** The settings after the loop of `update`. */
  function Apply(m: Settings, ov: Overrides): Settings {
    if ov == [] then m
    else
      var m' := Apply(m, ov[..|ov| - 1]);
      var (key, value) := ov[|ov| - 1];
      if value.Some? then m'[key := value.value] else m'
  }

  /** Whether `update` calls `save`: not when `format` is passed a video format. */
  predicate Persists(ov: Overrides) {
    !exists i :: 0 <= i < |ov| && ov[i].0 == "format" && ov[i].1.Some? &&
                 ov[i].1.value.Str? && ov[i].1.value.s in VideoFormats
  }

  /** `update` sets exactly the keys passed with a value, to that value, and
      leaves every other key as it was. */
  lemma {:induction false} ApplyEffect(m: Settings, ov: Overrides)
    requires DistinctKeys(ov)
    ensures forall i :: 0 <= i < |ov| && ov[i].1.Some? ==>
              ov[i].0 in Apply(m, ov) && Apply(m, ov)[ov[i].0] == ov[i].1.value
    ensures forall k :: (forall i :: 0 <= i < |ov| && ov[i].1.Some? ==> ov[i].0 != k) ==>
              (k in Apply(m, ov) <==> k in m) && (k in m ==> Apply(m, ov)[k] == m[k])
  {
    if ov != [] {
      var init := ov[..|ov| - 1];
      assert DistinctKeys(init) by {
        forall i, j | 0 <= i < j < |init| ensures init[i].0 != init[j].0 {
          assert init[i] == ov[i] && init[j] == ov[j];
        }
      }
      ApplyEffect(m, init);
      forall i | 0 <= i < |ov| - 1 ensures ov[i] == init[i] && ov[i].0 != ov[|ov| - 1].0 {
      }
    }
  }

  /** The defaults stay present after an update. */
  lemma {:induction false} ApplyKeepsDefaults(m: Settings, ov: Overrides)
    requires HasDefaults(m)
    ensures HasDefaults(Apply(m, ov))
    ensures m.Keys <= Apply(m, ov).Keys
  {
    if ov != [] {
      ApplyKeepsDefaults(m, ov[..|ov| - 1]);
    }
  }

  /** What is saved never switches to a video format: an update that passes a
      video format is not saved, and one that passes no format keeps the one
      it started with. */
  lemma SavedFormatStaysAudio(m: Settings, ov: Overrides)
    requires DistinctKeys(ov)
    requires "format" in m && !(m["format"].Str? && m["format"].s in VideoFormats)
    requires Persists(ov)
    ensures var r := Apply(m, ov);
            "format" in r && !(r["format"].Str? && r["format"].s in VideoFormats)
  {
    ApplyEffect(m, ov);
    var r := Apply(m, ov);
    if i :| 0 <= i < |ov| && ov[i].1.Some? && ov[i].0 == "format" {
      assert r["format"] == ov[i].1.value;
    }
  }

  /** The persistent configuration object. */
  class Config {
    var settings: Settings

    ghost predicate Valid()
      reads this
    {
      HasDefaults(settings)
    }

    /** `Config()`: the settings `load` gives. */
    constructor (stored: Option<Settings>)
      ensures Valid()
      ensures settings == Load(stored)
    {
      settings := Load(stored);
    }

    /** `update(**kwargs)`; the result says whether `save` is called. */
    method Update(ov: Overrides) returns (saved: bool)
      requires Valid()
      requires DistinctKeys(ov)
      modifies this
      ensures Valid()
      ensures settings == Apply(old(settings), ov)
      ensures saved == Persists(ov)
    {
      ghost var start := settings;
      var i := 0;
      while i < |ov|
        invariant 0 <= i <= |ov|
        invariant settings == Apply(start, ov[..i])
      {
        assert ov[..i + 1][..i] == ov[..i];
        var (key, value) := ov[i];
        if value.Some? {
          settings := settings[key := value.value];
        }
        i := i + 1;
      }
      assert ov[..|ov|] == ov;
      ApplyKeepsDefaults(start, ov);
      saved := true;
      var j := 0;
      while j < |ov|
        invariant 0 <= j <= |ov|
        invariant saved <==> !exists k :: 0 <= k < j && ov[k].0 == "format" && ov[k].1.Some? &&
                                          ov[k].1.value.Str? && ov[k].1.value.s in VideoFormats
      {
        if ov[j].0 == "format" && ov[j].1.Some? && ov[j].1.value.Str? && ov[j].1.value.s in VideoFormats {
          saved := false;
        }
        j := j + 1;
      }
    }
  }
}
