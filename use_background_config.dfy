/** The background settings hook: three switches with defaults, read once from
    local storage and written back on every change. Local storage is a field;
    whether a write throws is a parameter. */
module UseBackgroundConfig {
  import opened Wrappers

  datatype Config = Config(showGrid: bool, showParticles: bool, showHeaderBlur: bool)

  /** A partial config: the keys an object spread copies. */
  datatype Patch = Patch(showGrid: Option<bool>, showParticles: Option<bool>, showHeaderBlur: Option<bool>)

  const DefaultConfig := Config(false, false, true)
  const EmptyPatch := Patch(None, None, None)

  /** What `localStorage.getItem` gave: nothing or an empty string, text
      `JSON.parse` rejects, or a parsed object. */
  datatype Stored = NotStored | Unparsable | Parsed(patch: Patch)

  /** `{ ...config, ...patch }`: keys present in the patch win. */
  function Merge(config: Config, patch: Patch): (r: Config)
    ensures r.showGrid == patch.showGrid.GetOr(config.showGrid)
    ensures r.showParticles == patch.showParticles.GetOr(config.showParticles)
    ensures r.showHeaderBlur == patch.showHeaderBlur.GetOr(config.showHeaderBlur)
  {
    Config(patch.showGrid.GetOr(config.showGrid),
           patch.showParticles.GetOr(config.showParticles),
           patch.showHeaderBlur.GetOr(config.showHeaderBlur))
  }

  /** The patch that sets every field to its value in `config`. */
  function Full(config: Config): Patch {
    Patch(Some(config.showGrid), Some(config.showParticles), Some(config.showHeaderBlur))
  }

  /** Spreading `b` after `a`. */
  function Then(a: Patch, b: Patch): Patch {
    Patch(if b.showGrid.Some? then b.showGrid else a.showGrid,
          if b.showParticles.Some? then b.showParticles else a.showParticles,
          if b.showHeaderBlur.Some? then b.showHeaderBlur else a.showHeaderBlur)
  }

  /** An empty patch changes nothing, a patch applied twice is applied once,
      two patches in a row are their combination, and a full patch replaces
      everything. */
  lemma MergeLaws(config: Config, p: Patch, q: Patch, other: Config)
    ensures Merge(config, EmptyPatch) == config
    ensures Merge(Merge(config, p), p) == Merge(config, p)
    ensures Merge(Merge(config, p), q) == Merge(config, Then(p, q))
    ensures Merge(other, Full(config)) == config
  {
  }

  /** The config the loading effect arrives at. */
  function Loaded(stored: Stored): (r: Config)
    ensures !stored.Parsed? ==> r == DefaultConfig
    ensures stored.Parsed? ==> r == Merge(DefaultConfig, stored.patch)
  {
    if stored.Parsed? then Merge(DefaultConfig, stored.patch) else DefaultConfig
  }

  /** What a later load reads back from a config `updateConfig` wrote:
      `JSON.parse(JSON.stringify(config))` has every key. */
  function StoredOf(config: Config): Stored {
    Parsed(Full(config))
  }

  /** A saved config loads back as itself, whatever the defaults are. */
  lemma SavedLoadsBack(config: Config)
    ensures Loaded(StoredOf(config)) == config
  {
    MergeLaws(config, EmptyPatch, EmptyPatch, DefaultConfig);
  }

  class UseBackgroundConfig {
    var config: Config
    var isLoaded: bool
    /** The config last written to local storage, if any. */
    var saved: Option<Config>

    constructor (saved: Option<Config>)
      ensures config == DefaultConfig && !isLoaded && this.saved == saved
    {
      config := DefaultConfig;
      isLoaded := false;
      this.saved := saved;
    }

    /** The loading effect. */
    method Load(stored: Stored)
      modifies this
      ensures isLoaded
      ensures stored.Parsed? ==> config == Merge(DefaultConfig, stored.patch)
      ensures !stored.Parsed? ==> config == old(config)
      ensures old(config) == DefaultConfig ==> config == Loaded(stored)
      ensures saved == old(saved)
    {
      if stored.Parsed? {
        config := Merge(DefaultConfig, stored.patch);
      }
      isLoaded := true;
    }

    /** `updateConfig`: the merged config becomes the state and is written to
        storage unless the write throws. */
    method UpdateConfig(updates: Patch, writeFails: bool)
      modifies this
      ensures config == Merge(old(config), updates) && isLoaded == old(isLoaded)
      ensures !writeFails ==> saved == Some(config)
      ensures writeFails ==> saved == old(saved)
    {
      var newConfig := Merge(config, updates);
      config := newConfig;
      if !writeFails {
        saved := Some(newConfig);
      }
    }

    method SetShowGrid(show: bool, writeFails: bool)
      modifies this
      ensures config == old(config).(showGrid := show) && isLoaded == old(isLoaded)
      ensures !writeFails ==> saved == Some(config)
      ensures writeFails ==> saved == old(saved)
    {
      UpdateConfig(Patch(Some(show), None, None), writeFails);
    }

    method SetShowParticles(show: bool, writeFails: bool)
      modifies this
      ensures config == old(config).(showParticles := show) && isLoaded == old(isLoaded)
      ensures !writeFails ==> saved == Some(config)
      ensures writeFails ==> saved == old(saved)
    {
      UpdateConfig(Patch(None, Some(show), None), writeFails);
    }

    method SetShowHeaderBlur(show: bool, writeFails: bool)
      modifies this
      ensures config == old(config).(showHeaderBlur := show) && isLoaded == old(isLoaded)
      ensures !writeFails ==> saved == Some(config)
      ensures writeFails ==> saved == old(saved)
    {
      UpdateConfig(Patch(None, None, Some(show)), writeFails);
    }
  }
}
