/** The `wave-surfer` element the sound widget embeds: it loads the waveform
    library once per page, draws the sound with a timeline and the detected
    regions, keeps the regions in step with its `regions` property and shows
    a spinner while a score runs. Resolvers and the score function's promise
    are events: `InitializeWaveSurfer` is what runs when the element's
    loader resolver is called, `OnScoreSettled` what runs when the score
    function's promise settles either way. */
module WaveSurfer {
  import opened Wrappers
  import opened Segments
  import opened Regions
  import opened ScriptLoader

  class AIWaveSurfer {
    /** The object URL of the sound, once one was set. */
    var url: Option<string>
    var regions: seq<Segment>
    var working: bool
    var wavesurfer: Waveform?
    /** The number of times the score function was called. */
    var scoreCalls: nat

    constructor ()
      ensures url == None && regions == [] && !working && wavesurfer == null && scoreCalls == 0
    {
      url := None;
      regions := [];
      working := false;
      wavesurfer := null;
      scoreCalls := 0;
    }

    /** `_initializeWaveSurfer`: destroy the previous waveform, create one
        with a timeline and a regions plugin holding this element's regions,
        and load the sound when there is one. */
    method InitializeWaveSurfer()
      modifies this`wavesurfer, wavesurfer
      ensures old(wavesurfer) != null ==> old(wavesurfer).destroyed
      ensures wavesurfer != null && fresh(wavesurfer)
      ensures wavesurfer.plugins == [Timeline, RegionsPlugin(ToRegions(regions))]
      ensures wavesurfer.regions == ToRegions(regions)
      ensures wavesurfer.loadedUrl == (if Truthy(url) then url else None)
      ensures !wavesurfer.destroyed
    {
      if wavesurfer != null {
        wavesurfer.Destroy();
      }
      var regs := ConvertRegions(regions);
      var plugins := [Timeline, RegionsPlugin(regs)];
      wavesurfer := new Waveform(plugins, regs);
      if url.Some? && url.value != "" {
        wavesurfer.Load(url.value);
      }
    }

    /** The `regions` property is set; its observer `_regionsChanged` does
        nothing before the waveform exists, and otherwise makes the waveform
        show exactly the new regions. */
    method RegionsChanged(newValue: seq<Segment>)
      modifies this`regions, wavesurfer
      ensures regions == newValue
      ensures wavesurfer == old(wavesurfer)
      ensures wavesurfer != null ==>
        && wavesurfer.regions == ToRegions(newValue)
        && wavesurfer.plugins == old(wavesurfer.plugins)
        && wavesurfer.loadedUrl == old(wavesurfer.loadedUrl)
        && wavesurfer.destroyed == old(wavesurfer.destroyed)
    {
      regions := newValue;
      if wavesurfer == null {
        return;
      }
      ReplaceRegions(wavesurfer, newValue);
    }

    /** `score`: the spinner turns on before the score function is called. */
    method Score()
      modifies this`working, this`scoreCalls
      ensures working && scoreCalls == old(scoreCalls) + 1
    {
      working := true;
      scoreCalls := scoreCalls + 1;
    }

    /** The score function's promise resolved or rejected: the spinner
        turns off in both cases. */
    method OnScoreSettled()
      modifies this`working
      ensures !working
    {
      working := false;
    }

    /** `_onSoundChanged`: remember the sound's URL and ask the page-wide
        loader for the library with resolver `r`; the list of a new loader
        record is this element's own. */
    method OnSoundChanged(objectUrl: string, loader: LoadingScript, r: nat)
      requires loader.Valid()
      modifies this`url, loader
      ensures url == Some(objectUrl)
      ensures loader.Valid() && loader.Requested(WaveSurferElement, r)
    {
      url := Some(objectUrl);
      loader.Request(WaveSurferElement, r);
    }
  }
  /** The first sound given to a plain waveform element creates the loader
      record with this element's list; the element's resolver is called
      once the third script has loaded, and not before. */
  method FirstSoundLoadsLibrary(objectUrl: string)
    returns (appended: seq<string>, resolvedEarly: seq<nat>, resolved: seq<nat>)
    ensures appended == ScriptUrls(WaveSurferElement)
    ensures resolvedEarly == []
    ensures resolved == [0]
  {
    var loader := new LoadingScript();
    var element := new AIWaveSurfer();
    element.OnSoundChanged(objectUrl, loader, 0);
    loader.OnScriptLoaded();
    loader.OnScriptLoaded();
    resolvedEarly := loader.resolved;
    loader.OnScriptLoaded();
    appended := loader.appended;
    resolved := loader.resolved;
  }
}
