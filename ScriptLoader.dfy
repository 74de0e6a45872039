/** The page-wide record `window.loadingScript` that both waveform elements
    use to load the waveform library once. A script tag's `onload` is an
    event; resolvers are named by number, and calling one is recorded. */
module ScriptLoader {

  /** The two elements that carry a `_loadScript`, each with its own list. */
  datatype Caller = WaveSurferElement | WaveSurferWithMicroElement

  function ScriptUrls(caller: Caller): (urls: seq<string>)
    ensures |urls| == 3
  {
    match caller
    case WaveSurferElement => ["wavesurfer.min.js", "wavesurfer.regions.min.js", "wavesurfer.timeline.min.js"]
    case WaveSurferWithMicroElement => ["wavesurfer.js", "wavesurfer.regions.min.js", "wavesurfer.microphone.min.js"]
  }

  class LoadingScript {
    /** Whether `window.loadingScript` has been created. */
    var present: bool
    var loading: bool
    var loaded: bool
    /** The scripts still to load. */
    var urls: seq<string>
    /** Queued resolvers. */
    var promises: seq<nat>
    var step: nat
    /** Scripts whose tag has been appended to the document head, in order. */
    var appended: seq<string>
    /** Resolvers called so far, in order. */
    var resolved: seq<nat>
    /** The list the record was created with. */
    ghost var initialUrls: seq<string>

    /** The record is created by the first request, which also starts the
        chain; the chain has appended a prefix of the list, one script per
        step; nothing is resolved before the load completes, and completing
        resolves every queued resolver. */
    ghost predicate Valid()
      reads this
    {
      && (!present ==>
            && !loading && !loaded && urls == [] && promises == [] && step == 0
            && appended == [] && resolved == [])
      && (present ==>
            && loading && initialUrls != []
            && appended + urls == initialUrls
            && step == |appended| + (if loaded then 1 else 0)
            && (loaded ==> urls == [] && promises <= resolved)
            && (!loaded ==> resolved == []))
    }

    /** The page before any waveform element asked for the library. */
    constructor ()
      ensures Valid() && !present
    {
      present, loading, loaded := false, false, false;
      urls, promises, step := [], [], 0;
      appended, resolved := [], [];
      initialUrls := [];
    }

    /** The state `Request(caller, r)` leaves, relative to the state before:
        the request of `caller` whose promise resolves through resolver `r`. */
    twostate predicate Requested(caller: Caller, r: nat)
      reads this
    {
      && present
      // the record is created only when absent, from the caller's own list
      && initialUrls == (if old(present) then old(initialUrls) else ScriptUrls(caller))
      // once loaded, a request resolves at once
      && (old(loaded) ==>
            && resolved == old(resolved) + [r] && promises == old(promises)
            && urls == old(urls) && appended == old(appended) && step == old(step) && loaded)
      // while loading, a request only queues its resolver
      && (old(present) && !old(loaded) ==>
            && promises == old(promises) + [r] && resolved == old(resolved)
            && urls == old(urls) && appended == old(appended) && step == old(step) && !loaded)
      // the first request starts the chain with the first script of its list
      && (!old(present) ==>
            && promises == [r] && resolved == [] && !loaded && step == 1
            && appended == [ScriptUrls(caller)[0]] && urls == ScriptUrls(caller)[1..])
    }

    /** `_loadScript()` called by `caller`, whose promise resolves through
        resolver `r`. */
    method Request(caller: Caller, r: nat)
      requires Valid()
      modifies this
      ensures Valid() && Requested(caller, r)
    {
      if !present {
        present, loading, loaded := true, false, false;
        urls, promises, step := ScriptUrls(caller), [], 0;
        initialUrls := urls;
      }
      if loaded {
        resolved := resolved + [r];
      } else if !loading {
        LoadNext();
        loading := true;
        promises := promises + [r];
      } else {
        promises := promises + [r];
      }
    }

    /** The `onload` of the script appended last has fired. */
    method OnScriptLoaded()
      requires Valid() && present && !loaded
      modifies this
      ensures Valid() && present
      ensures step == old(step) + 1 && promises == old(promises)
      ensures initialUrls == old(initialUrls)
      // the next script of the list, exactly one, is appended
      ensures old(urls) != [] ==>
        && appended == old(appended) + [old(urls)[0]] && urls == old(urls)[1..]
        && !loaded && resolved == []
      // or, when the list is done, the load completes and every queued
      // resolver is called, in order
      ensures old(urls) == [] ==> loaded && resolved == promises && appended == old(appended)
    {
      LoadNext();
    }

    /** `_f`: one link of the chain. */
    method LoadNext()
      requires loading ==> present && !loaded
      modifies this`step, this`urls, this`appended, this`loaded, this`resolved
      ensures step == old(step) + 1
      ensures old(urls) == [] ==> loaded && resolved == old(resolved) + promises && urls == [] && appended == old(appended)
      ensures old(urls) != [] ==>
        && appended == old(appended) + [old(urls)[0]] && urls == old(urls)[1..]
        && loaded == old(loaded) && resolved == old(resolved)
    {
      step := step + 1;
      if |urls| == 0 {
        loaded := true;
        resolved := resolved + promises;
      } else {
        appended := appended + [urls[0]];
        urls := urls[1..];
      }
    }
  }

  /** Two elements ask for the library in turn, then the three appended
      scripts load: the scripts are the first caller's list, in its order,
      whatever the second caller's list is; nothing resolves before the
      last one has loaded, and then both resolvers are called in request
      order. */
  method LoadOnce(first: Caller, second: Caller) returns (appended: seq<string>, resolvedEarly: seq<nat>, resolved: seq<nat>)
    ensures appended == ScriptUrls(first)
    ensures resolvedEarly == []
    ensures resolved == [0, 1]
  {
    var record := new LoadingScript();
    record.Request(first, 0);
    record.Request(second, 1);
    record.OnScriptLoaded();
    record.OnScriptLoaded();
    assert record.urls == [];
    resolvedEarly := record.resolved;
    record.OnScriptLoaded();
    appended := record.appended;
    resolved := record.resolved;
  }
}
