/** What both waveform elements hand the waveform library: one region per
    display segment, and the library object itself, reduced to the state the
    elements set (its plugins, its regions, the sound it loaded). */
module Regions {
  import opened Wrappers
  import opened Numbers
  import opened Segments

  /** The region object `_createRegion` builds. */
  datatype Region = Region(drag: bool, resize: bool, start: real, end: Number, color: Color)

  /** The plugins a waveform can be created with; the regions plugin carries
      the regions it starts with. */
  datatype Plugin = Timeline | RegionsPlugin(regions: seq<Region>) | Microphone

  /** `_createRegion`: a fixed region covering the segment, from its start
      for its duration, in its colour. */
  function CreateRegion(seg: Segment): (r: Region)
    ensures !r.drag && !r.resize
    ensures r.start == seg.start && r.color == seg.color
    ensures r.end.Finite? <==> seg.duration.Finite?
    ensures r.end.Finite? ==> r.end.value - r.start == seg.duration.value
  {
    Region(false, false, seg.start, Add(Finite(seg.start), seg.duration), seg.color)
  }

  /** The regions of a segment list, one for one and in order. */
  function ToRegions(segs: seq<Segment>): (rs: seq<Region>)
  {
    seq(|segs|, i requires 0 <= i < |segs| => CreateRegion(segs[i]))
  }

  /** Converting a list converts each part of it separately. */
  lemma ToRegionsAppend(a: seq<Segment>, b: seq<Segment>)
    ensures ToRegions(a + b) == ToRegions(a) + ToRegions(b)
  {
    assert |ToRegions(a + b)| == |ToRegions(a) + ToRegions(b)|;
    forall k | 0 <= k < |a + b|
      ensures ToRegions(a + b)[k] == (ToRegions(a) + ToRegions(b))[k]
    {
      if k < |a| {
        assert (a + b)[k] == a[k];
      } else {
        assert (a + b)[k] == b[k - |a|];
      }
    }
  }

  /** The `forEach` of `_initializeWaveSurfer` that pushes one region per
      segment into `regs`. */
  method ConvertRegions(regions: seq<Segment>) returns (regs: seq<Region>)
    ensures |regs| == |regions|
    ensures forall k :: 0 <= k < |regs| ==>
      && regs[k].start == regions[k].start && regs[k].color == regions[k].color
      && !regs[k].drag && !regs[k].resize
      && regs[k].end == Add(Finite(regions[k].start), regions[k].duration)
    ensures regs == ToRegions(regions)
  {
    regs := [];
    var i := 0;
    while i < |regions|
      invariant 0 <= i <= |regions|
      invariant regs == ToRegions(regions[..i])
    {
      ToRegionsAppend(regions[..i], [regions[i]]);
      assert regions[..i + 1] == regions[..i] + [regions[i]];
      regs := regs + [CreateRegion(regions[i])];
      i := i + 1;
    }
    assert regions[..i] == regions;
  }

  /** JavaScript truthiness of the element's `url`. */
  predicate Truthy(url: Option<string>)
  {
    url.Some? && url.value != ""
  }

  /** The waveform library object, reduced to what the elements set. */
  class Waveform {
    var plugins: seq<Plugin>
    /** The regions it shows, in order. */
    var regions: seq<Region>
    /** The sound it was told to load, if any. */
    var loadedUrl: Option<string>
    var destroyed: bool

    /** `WaveSurfer.create`: a waveform with these plugins, showing the
        regions its regions plugin starts with. */
    constructor (plugins: seq<Plugin>, regions: seq<Region>)
      ensures this.plugins == plugins && this.regions == regions
      ensures loadedUrl == None && !destroyed
    {
      this.plugins := plugins;
      this.regions := regions;
      loadedUrl := None;
      destroyed := false;
    }

    method ClearRegions()
      modifies this`regions
      ensures regions == []
    {
      regions := [];
    }

    method AddRegion(r: Region)
      modifies this`regions
      ensures regions == old(regions) + [r]
    {
      regions := regions + [r];
    }

    method Load(url: string)
      modifies this`loadedUrl
      ensures loadedUrl == Some(url)
    {
      loadedUrl := Some(url);
    }

    method Destroy()
      modifies this`destroyed
      ensures destroyed
    {
      destroyed := true;
    }
  }

  /** The body of `_regionsChanged` once the waveform exists: clear every
      region, then add one per new segment, in order; the waveform then
      shows exactly the new list. */
  method ReplaceRegions(w: Waveform, newValue: seq<Segment>)
    modifies w`regions
    ensures w.regions == ToRegions(newValue)
  {
    w.ClearRegions();
    var i := 0;
    while i < |newValue|
      invariant 0 <= i <= |newValue|
      invariant w.regions == ToRegions(newValue[..i])
    {
      ToRegionsAppend(newValue[..i], [newValue[i]]);
      assert newValue[..i + 1] == newValue[..i] + [newValue[i]];
      w.AddRegion(CreateRegion(newValue[i]));
      i := i + 1;
    }
    assert newValue[..i] == newValue;
  }
}
