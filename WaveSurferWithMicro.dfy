/** The microphone variant of the waveform element: the same loader record
    with its own script list, a regions plugin always, and a microphone
    plugin when `microphoneEnabled` is set; turning the microphone on or off
    loads the library (if needed) and rebuilds the waveform. */
module WaveSurferWithMicro {
  import opened Wrappers
  import opened Segments
  import opened Regions
  import opened ScriptLoader

  /** The plugin list for a waveform showing `regs`: the regions plugin
      first, then the microphone plugin exactly when it is enabled. */
  function PluginsFor(regs: seq<Region>, microphoneEnabled: bool): (plugins: seq<Plugin>)
    ensures plugins != [] && plugins[0] == RegionsPlugin(regs)
    ensures Microphone in plugins <==> microphoneEnabled
    ensures Timeline !in plugins
    ensures |plugins| == if microphoneEnabled then 2 else 1
  {
    if microphoneEnabled then [RegionsPlugin(regs), Microphone] else [RegionsPlugin(regs)]
  }

  /** The observer fires when the new value differs from the old one, and
      on the first assignment, whose old value is `undefined`. */
  function Reloads(newValue: bool, oldValue: Option<bool>): (r: bool)
    ensures r <==> oldValue.None? || oldValue.value != newValue
  {
    oldValue != Some(newValue)
  }

  class AIWaveSurferWithMicro {
    var url: Option<string>
    var regions: seq<Segment>
    var microphoneEnabled: bool
    var wavesurfer: Waveform?
    var scoreCalls: nat

    constructor ()
      ensures url == None && regions == [] && !microphoneEnabled && wavesurfer == null && scoreCalls == 0
    {
      url := None;
      regions := [];
      microphoneEnabled := false;
      wavesurfer := null;
      scoreCalls := 0;
    }

    /** `_initializeWaveSurfer`: destroy the previous waveform and create
        one whose plugins are the regions plugin, holding this element's
        regions, and the microphone plugin when enabled. */
    method InitializeWaveSurfer()
      modifies this`wavesurfer, wavesurfer
      ensures old(wavesurfer) != null ==> old(wavesurfer).destroyed
      ensures wavesurfer != null && fresh(wavesurfer)
      ensures wavesurfer.plugins == PluginsFor(ToRegions(regions), microphoneEnabled)
      ensures wavesurfer.regions == ToRegions(regions)
      ensures wavesurfer.loadedUrl == (if Truthy(url) then url else None)
      ensures !wavesurfer.destroyed
    {
      if wavesurfer != null {
        wavesurfer.Destroy();
      }
      var regs := ConvertRegions(regions);
      var plugins := [RegionsPlugin(regs)];
      if microphoneEnabled {
        plugins := plugins + [Microphone];
      }
      wavesurfer := new Waveform(plugins, regs);
      if url.Some? && url.value != "" {
        wavesurfer.Load(url.value);
      }
    }

    /** `_regionsChanged`: a no-op before the waveform exists; afterwards
        the waveform shows exactly the new regions. */
    method RegionsChanged(newValue: seq<Segment>)
      modifies this`regions, wavesurfer
      ensures regions == newValue
      ensures wavesurfer == old(wavesurfer)
      ensures wavesurfer != null ==>
        && wavesurfer.regions == ToRegions(newValue)
        && wavesurfer.plugins == old(wavesurfer.plugins)
        && wavesurfer.loadedUrl == old(wavesurfer.loadedUrl)
        && wavesurfer.destroyed == old(wavesurfer.destroyed)
    {
      regions := newValue;
      if wavesurfer == null {
        return;
      }
      ReplaceRegions(wavesurfer, newValue);
    }

    /** `score`: only calls the score function; this variant has no spinner. */
    method Score()
      modifies this`scoreCalls
      ensures scoreCalls == old(scoreCalls) + 1
    {
      scoreCalls := scoreCalls + 1;
    }

    /** `_onSoundChanged`: remember the URL and request the library. */
    method OnSoundChanged(objectUrl: string, loader: LoadingScript, r: nat)
      requires loader.Valid()
      modifies this`url, loader
      ensures url == Some(objectUrl)
      ensures loader.Valid() && loader.Requested(WaveSurferWithMicroElement, r)
    {
      url := Some(objectUrl);
      loader.Request(WaveSurferWithMicroElement, r);
    }

    /** `microphoneEnabled` is set to `newValue`, its previous value being
        `oldValue` (`None` for the first assignment): only a real change
        requests the library, with resolver `r`, whose resolution rebuilds
        the waveform. */
    method OnMicrophoneEnabledChanged(newValue: bool, oldValue: Option<bool>, loader: LoadingScript, r: nat)
      returns (reloads: bool)
      requires loader.Valid()
      modifies this`microphoneEnabled, loader
      ensures microphoneEnabled == newValue
      ensures reloads == Reloads(newValue, oldValue)
      ensures !reloads ==> unchanged(loader)
      ensures loader.Valid()
      ensures reloads ==> loader.Requested(WaveSurferWithMicroElement, r)
    {
      microphoneEnabled := newValue;
      reloads := false;
      if oldValue != Some(newValue) {
        loader.Request(WaveSurferWithMicroElement, r);
        reloads := true;
      }
    }
  }
  /** The microphone is switched on before any sound: its observer creates
      the loader record, so the record loads this element's list, and the
      resolver is called only after the third `onload`. */
  method MicrophoneFirstLoad() returns (appended: seq<string>, resolvedEarly: seq<nat>, resolved: seq<nat>)
    ensures appended == ScriptUrls(WaveSurferWithMicroElement)
    ensures resolvedEarly == []
    ensures resolved == [0]
  {
    var loader := new LoadingScript();
    var element := new AIWaveSurferWithMicro();
    var reloads := element.OnMicrophoneEnabledChanged(true, None, loader, 0);
    loader.OnScriptLoaded();
    loader.OnScriptLoaded();
    resolvedEarly := loader.resolved;
    loader.OnScriptLoaded();
    appended := loader.appended;
    resolved := loader.resolved;
  }
}
