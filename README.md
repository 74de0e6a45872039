# Sound classification front end: a Dafny model of its core logic

The application lets a user drop or record sounds in a browser and send each one
to a remote classification service. It shows the overall label the service
returns, and draws the per-time detections as coloured bands and regions over a
waveform. A small Java servlet proxies the requests and decides whether a sound
must first be transcoded to 16-bit PCM at 44.1 kHz.

This project models the parts of that system that are logic rather than
plumbing, and proves what they promise:

- **`Reducer`**: the detection reducer of the sound widget (`_processResultArray`).
  - It is a streaming pass that compares each detection only with the last one it kept.
  - It consumes its input array.
  - It is proved equal to a reference definition: cut the input into maximal
    runs of equal `time`, then keep the earliest most-confident entry of each run.
- **`Segments`**: the display segments built from the reduced list.
  - Each segment gets an equal width, its confidence as a percentage, and a hue from `_selectColor`.
- **`Sound`**: the per-sound scoring state machine.
  - `score` has a single-flight guard.
  - The reply's outcomes are modelled, including those where the handler throws.
  - `_itemChanged` and `ready` are modelled too.
- **`Scoring`**: the batch view, which scores its sounds one after the other.
- **`ScriptLoader`**: the page-wide load-once record `window.loadingScript`, used by whichever waveform element a page defines.
  - Both element files register the same tag, `wave-surfer`, and only `wave-surfer.js` is imported (by `ai-sound.js`). So in the shipped pages one script list is ever used.
  - The record is modelled for either element, and for a page that would load both.
- **`Regions`**, **`WaveSurfer`** and **`WaveSurferWithMicro`**: the two waveform elements.
  - Segments are converted to regions.
  - The region list is replaced in full when it changes.
  - Each element chooses its plugins.
  - The microphone toggle has an observer.
  - The plain element has a spinner flag.
- **`App`**: route to page, and page to the module imported on demand.
- **`Capture`**: the recording loop of the capture view.
- **`Servlet`**: the transcode decision made from the probe tool's output lines, and the platform suffix of the bundled tool names.

Events are modelled as methods that the environment calls in sequence:
- a service reply arriving;
- a promise settling;
- a script's `onload` firing;
- a recorder delivering a recording.

Foreign values are parameters:
- the service reply is a `Reply` datatype;
- the waveform's `getDuration()` is a `total: Option<real>`, `None` when the waveform does not exist yet and the call throws;
- the object URL of a sound is a string.

Resolvers, sounds and recordings are named by numbers. The calls made to them
are recorded in sequence fields (`requests`, `resolved`, `scoreCalls`,
`recorder`, `appended`), so that contracts can state what was called and in
which order.

Numbers are `real`. JavaScript semantics are written out where they matter:
- `NaN` is modelled for the `0 / 0` a zero-length sound produces;
- `%` is modelled for the hue;
- truthiness is modelled for routes and URLs;
- loose `!=` against `undefined` is modelled for the microphone observer.

Some of the code's behaviour is easy to misread; the model follows the code:

- The overall label comes from the head of the reply's `majority` array after
  its descending sort. It does not come from `detail`.
- A rejected request shows the response's `error_message` as it is. When that
  field is absent the message is `undefined`; there is no generic fallback text.
- A successful reply whose `majority` is empty sets `scored` and then throws. The
  promise is never resolved and `scoring` stays true (`Sound.AISound.Stall`). The
  batch view waiting on that sound therefore never continues.
- A successful reply that arrives before the waveform exists stalls the same
  way, after the label has been set. The waveform is created only once the
  library has loaded, and an `auto-score` widget sends its request from `ready`.
- A sound of duration zero gives every segment a width of `NaN`, because the
  width is `0 / 0`. Otherwise the width is exactly `100 / n`.
- Only the element that creates the loader record starts the load chain. The
  record keeps the creator's script list, whichever element asks later.

## Model

| member | source | states |
|---|---|---|
| `Reducer.ProcessResultArray` | WebContent/polymer/src/ai-sound.js:232-252 | returns the reduction of the array's contents, and leaves the array empty |
| `Reducer.ReduceIsBestOfEachRun` | WebContent/polymer/src/ai-sound.js:235-249 | the streaming reduction equals the reference: the best entry of every maximal run of equal time, one per run, in order |
| `Reducer.GroupIsMaximalRuns` | WebContent/polymer/src/ai-sound.js:240-246 | the reference runs are non-empty and each has one time; neighbouring runs have different times; concatenated, they give back the input |
| `Reducer.BestOfIsFirstMax` | WebContent/polymer/src/ai-sound.js:243-246 | the strict `>` scan keeps an entry of maximal confidence, and on a tie the earliest one |
| `Reducer.KeptEntryIsBestOfRun` | WebContent/polymer/src/ai-sound.js:240-246 | there is one kept entry per run, and entry `k` is the entry kept from run `k` |
| `Reducer.KeptEntryIsFirstMaxOfRun` | WebContent/polymer/src/ai-sound.js:240-246 | each kept entry is the earliest maximal-confidence detection of its run |
| `Reducer.NoAdjacentEqualTimes` | WebContent/polymer/src/ai-sound.js:237-242 | no two neighbouring kept entries share a time |
| `Reducer.ReduceIsSubsequence` | WebContent/polymer/src/ai-sound.js:235-246 | the output is a subsequence of the input: entries are only deleted, never reordered or invented |
| `Reducer.ReduceEmptyIffEmpty` | WebContent/polymer/src/ai-sound.js:233-238 | the output is empty exactly when the input is, and it is never longer than the input |
| `Reducer.SeparatedEqualTimesNotMerged` | WebContent/polymer/src/ai-sound.js:240-241 | equal times separated by another time stay two entries: the reduction is streaming, not a global grouping |
| `Reducer.HigherConfidenceDuplicateWins` | WebContent/polymer/src/ai-sound.js:243-245 | a more confident neighbour of the same time replaces the kept entry |
| `Segments.Rem` | WebContent/polymer/src/ai-sound.js:191 | JavaScript `%` on non-negative operands: the result lies in `[0, m)` and is `x` itself when `x < m` |
| `Segments.SelectColor` | WebContent/polymer/src/ai-sound.js:189-192 | saturation 100 %, lightness 30 %, and a hue in `[0, 360)` |
| `Segments.HueIsEvenShare` | WebContent/polymer/src/ai-sound.js:189-191 | colour `i` of `n` has hue `i * 360 / n` |
| `Segments.DistinctHues` | WebContent/polymer/src/ai-sound.js:189-191 | the colours `0 .. n-1` of one result are pairwise distinct |
| `Segments.CountBelowOneIsOneColour` | WebContent/polymer/src/ai-sound.js:190 | a colour count below one behaves as a count of one, so every hue is 0 |
| `Segments.SegmentsDescribeDetections` | WebContent/polymer/src/ai-sound.js:254-269 | there is one segment per reduced entry, in order, carrying its class and start; its confidence ×100; colour `i` of `n`; a width of `100/n`, or NaN for a zero total |
| `Segments.WidthsSumTo100` | WebContent/polymer/src/ai-sound.js:255-264 | the widths of a non-empty result add up to 100 when the duration is not zero |
| `Segments.BuildSegments` | WebContent/polymer/src/ai-sound.js:259-269 | the loop builds exactly the segment list described above |
| `Sound.TopVoteIsFirstMax` | WebContent/polymer/src/ai-sound.js:224-226 | the label is taken from the most confident `majority` entry, the earliest one on a tie, as the head of the stable descending sort is |
| `Sound.AISound.Score` | WebContent/polymer/src/ai-sound.js:199-207 | while scoring, returns the pending promise and changes nothing. Otherwise it sets `scoring`, clears `scored`, `errored` and the detections, and sends exactly one request for the current item |
| `Sound.AISound.OnReply` | WebContent/polymer/src/ai-sound.js:217-289 | the outcome for each reply. Rejected: error flags and the service's message. Rejected with a null response: the error flags, the promise resolves, the message is left as it was. No result: error flags, the no-result text and empty detections. A result: the label and, once the duration is known, the segments of the reduced detections. In these the promise resolves and `scoring` ends. A result but no waveform yet: the label is set, no segments, and the promise stays pending. An empty `majority`: `scored` is set and the promise stays pending. A null response: nothing changes and the promise stays pending |
| `Sound.AISound.Fail` | WebContent/polymer/src/ai-sound.js:270-286 | an error outcome resolves the promise with `errored` set, `scored` and `scoring` cleared, and the message shown |
| `Sound.AISound.Stall` | WebContent/polymer/src/ai-sound.js:224-229 | with an empty `majority`, only `scored`/`errored` change before the throw; the promise is never resolved |
| `Sound.ReduceDetail` | WebContent/polymer/src/ai-sound.js:253 | the reply's `detail` array is handed to the reducer, which empties it and returns the reduction of its contents |
| `Sound.AISound.ShowResult` | WebContent/polymer/src/ai-sound.js:224-278 | the success path sets the label from the top vote. With a duration it sets `detectedClasses` to the segments of the reduced detail, ends `scoring` and resolves. Without one (`getDuration()` throws) it leaves `detectedClasses` and `scoring` as they were and resolves nothing |
| `Sound.AISound.ItemChanged` | WebContent/polymer/src/ai-sound.js:295-299 | a new item clears the detections and the three flags, and sends no request |
| `Sound.AISound.Ready` | WebContent/polymer/src/ai-sound.js:181-187 | without `autoScore`, or while a request is in flight, nothing changes. With it, the state `score()` leaves: one request for the current item under a new pending promise, `scoring` set, the flags and detections cleared, everything else kept |
| `Sound.AutoScoreLifecycle` | WebContent/polymer/src/ai-sound.js:181-187 | an `auto-score` widget sends one request for its item. A non-empty answer after the waveform exists resolves it with the segments of the reduced detections. The same answer before the waveform exists resolves nothing, and a later `score()` hands back the stalled promise without a new request |
| `Scoring.CanStartScoring` | WebContent/polymer/src/ai-scoring.js:159-161 | true exactly when there is a file list and it is not empty |
| `Scoring.CannotStartScoring` | WebContent/polymer/src/ai-scoring.js:155-157 | the exact negation of `CanStartScoring` |
| `Scoring.ScoringTextKey` | WebContent/polymer/src/ai-scoring.js:188-191 | the stop key exactly while scoring, the start key otherwise |
| `Scoring.AIScoring.OnScore` | WebContent/polymer/src/ai-scoring.js:163-184 | flips `scoring`. Switching on scores the first child, or ends at once for no children. Switching off cancels nothing |
| `Scoring.AIScoring.OnScoreSettled` | WebContent/polymer/src/ai-scoring.js:174-177 | drops exactly the head and scores the next child only now. An emptied queue clears `scoring`, and by then every child of the batch was scored once, in order |
| `Scoring.AIScoring.ScoreHead` | WebContent/polymer/src/ai-scoring.js:172-181 | scores the head of the queue, or clears `scoring` when the queue is empty |
| `ScriptLoader.ScriptUrls` | WebContent/polymer/src/wave-surfer.js:101 | each element's list has three scripts |
| `ScriptLoader.LoadingScript.Request` | WebContent/polymer/src/wave-surfer.js:103-135 | creates the record only when absent, from the caller's list. Once loaded, a request resolves at once. While loading, it only queues its resolver. The first request starts the chain with the first script |
| `ScriptLoader.LoadingScript.OnScriptLoaded` | WebContent/polymer/src/wave-surfer.js:110-121 | each `onload` appends exactly the next script in list order. Once the list is empty, the load completes and every queued resolver is called, in order |
| `ScriptLoader.LoadingScript.LoadNext` | WebContent/polymer/src/wave-surfer.js:110-124 | one link of the chain increments `step`, and either takes exactly the first remaining script or completes |
| `ScriptLoader.LoadOnce` | WebContent/polymer/src/wave-surfer-with-micro.js:95-129 | with two elements asking in turn, the first caller's list is loaded, whatever the second's. Nothing resolves before the last script has loaded, and then both resolvers are called in order |
| `WaveSurfer.FirstSoundLoadsLibrary` | WebContent/polymer/src/wave-surfer.js:235-241 | the first sound of a plain element creates the loader record with this element's list. Its resolver is called after the third `onload` and not before |
| `WaveSurferWithMicro.MicrophoneFirstLoad` | WebContent/polymer/src/wave-surfer-with-micro.js:229-235 | switching the microphone on before any sound creates the loader record, so this element's list is loaded. Its resolver is called after the third `onload` and not before |
| `Regions.CreateRegion` | WebContent/polymer/src/wave-surfer.js:144-146 | a fixed region (no drag, no resize) that starts where the segment starts and has its colour. Its `end` is `start + duration`, finite exactly when the duration is. The code adds the segment's width, a percentage of the sound, to its start time in seconds: one detection at 2 s in a 10 s sound gives a region ending at 102. `wave-surfer-with-micro.js:138-140` is the same function |
| `Regions.ToRegionsAppend` | WebContent/polymer/src/wave-surfer.js:191-193 | converting a list converts each part of it separately |
| `Regions.ConvertRegions` | WebContent/polymer/src/wave-surfer.js:154-157 | one region per segment, one for one and in order |
| `Regions.ReplaceRegions` | WebContent/polymer/src/wave-surfer.js:190-193 | after clearing and re-adding, the waveform shows exactly the new list's regions, in order |
| `WaveSurfer.AIWaveSurfer.InitializeWaveSurfer` | WebContent/polymer/src/wave-surfer.js:148-182 | destroys the previous waveform. The new one has a timeline and a regions plugin holding this element's regions, and loads the sound exactly when the URL is truthy |
| `WaveSurfer.AIWaveSurfer.RegionsChanged` | WebContent/polymer/src/wave-surfer.js:188-195 | a no-op on the waveform before it exists. Afterwards the waveform shows exactly the new regions, and nothing else about it changes |
| `WaveSurfer.AIWaveSurfer.Score` | WebContent/polymer/src/wave-surfer.js:212-214 | `working` is set, and the score function is called once |
| `WaveSurfer.AIWaveSurfer.OnScoreSettled` | WebContent/polymer/src/wave-surfer.js:214-220 | `working` is cleared whether the promise resolves or rejects |
| `WaveSurfer.AIWaveSurfer.OnSoundChanged` | WebContent/polymer/src/wave-surfer.js:235-241 | the URL is kept, and the loader is left exactly as `Request` leaves it for this element (`LoadingScript.Requested`): a new record takes this element's list and appends its first script, a loading record queues the resolver, and a loaded one calls it at once |
| `WaveSurferWithMicro.PluginsFor` | WebContent/polymer/src/wave-surfer-with-micro.js:153-156 | the regions plugin comes first, the microphone plugin is present exactly when enabled, and there is never a timeline |
| `WaveSurferWithMicro.Reloads` | WebContent/polymer/src/wave-surfer-with-micro.js:230 | the observer acts exactly when the old value is `undefined` or differs from the new one |
| `WaveSurferWithMicro.AIWaveSurferWithMicro.InitializeWaveSurfer` | WebContent/polymer/src/wave-surfer-with-micro.js:142-168 | destroys the previous waveform. The new one's plugins are the regions plugin plus the microphone plugin when enabled |
| `WaveSurferWithMicro.AIWaveSurferWithMicro.RegionsChanged` | WebContent/polymer/src/wave-surfer-with-micro.js:174-181 | a no-op before initialisation; afterwards the region set equals the new list |
| `WaveSurferWithMicro.AIWaveSurferWithMicro.Score` | WebContent/polymer/src/wave-surfer-with-micro.js:203-207 | calls the score function once, with no spinner |
| `WaveSurferWithMicro.AIWaveSurferWithMicro.OnSoundChanged` | WebContent/polymer/src/wave-surfer-with-micro.js:221-226 | the URL is kept, and the loader is left exactly as `Request` leaves it for this element (`LoadingScript.Requested`): a new record takes this element's list, which includes the microphone plugin, and appends its first script; a loading record queues the resolver; a loaded one calls it at once |
| `WaveSurferWithMicro.AIWaveSurferWithMicro.OnMicrophoneEnabledChanged` | WebContent/polymer/src/wave-surfer-with-micro.js:229-235 | requests the library, and so a rebuild, exactly when the value really changed, leaving the loader as `Request` leaves it for this element (`LoadingScript.Requested`). Otherwise the loader is untouched |
| `App.RoutePage` | WebContent/polymer/src/ai-app.js:177-188 | always one of the four page names. An empty or absent route gives `scoring`, a routable name gives itself, and any other string gives `view404` |
| `App.RoutePageIsIdempotent` | WebContent/polymer/src/ai-app.js:182-188 | resolving a resolved page name gives the same name |
| `App.RoutesToItselfIffPageName` | WebContent/polymer/src/ai-app.js:182-188 | a name routes to itself exactly when it is one of the four page names |
| `App.PageModule` | WebContent/polymer/src/ai-app.js:196-215 | a module is imported exactly for the four page names |
| `App.PageModulesAreDistinct` | WebContent/polymer/src/ai-app.js:201-214 | different pages import different modules |
| `App.EveryRouteHasAModule` | WebContent/polymer/src/ai-app.js:182-214 | every route leads to a page that imports a module |
| `Capture.RecordingDuration` | WebContent/polymer/src/ai-capture.js:173-175 | the recorder's duration is the view's duration in milliseconds; 5000 for the default of 5 seconds |
| `Capture.RecordingTextKey` | WebContent/polymer/src/ai-capture.js:168-171 | the stop key exactly while recording, the record key otherwise |
| `Capture.AICapture.constructor` | WebContent/polymer/src/ai-capture.js:97-131 | a new view is not recording, not ready, has no files, and a duration of 5 |
| `Capture.AICapture.Ready` | WebContent/polymer/src/ai-capture.js:139-142 | sets the ready guard |
| `Capture.AICapture.TakeSample` | WebContent/polymer/src/ai-capture.js:135-137 | flips `isRecording`. Before `ready`, neither the recorder nor the list is touched. Starting empties the list and starts the recorder; stopping only stops it. The last recorder order is "start" exactly while recording |
| `Capture.AICapture.IsRecordingChanged` | WebContent/polymer/src/ai-capture.js:144-153 | the observer, guarded by `ready`: start clears and starts, stop only stops |
| `Capture.AICapture.RecordingChanged` | WebContent/polymer/src/ai-capture.js:155-162 | a non-null recording is appended at the end and a null one is not. The recorder is started again exactly while still recording |
| `Capture.TwoSessions` | WebContent/polymer/src/ai-capture.js:144-162 | across two sessions, the first keeps every delivered recording, including the one its stop flushes; starting the second empties the list |
| `Servlet.Contains` | src/com/ibm/swg/iot4manuf/ai/ScoringServlet.java:199-200 | a literal substring test: true exactly when `sub` occurs at some index of `s` |
| `Servlet.NeedToTranscode` | src/com/ibm/swg/iot4manuf/ai/ScoringServlet.java:196-204 | false exactly when some line contains `", 44100 Hz,"` and some line, possibly a different one, contains `" pcm_s16le "`; empty output needs transcoding |
| `Servlet.AnyContainsSnoc` | src/com/ibm/swg/iot4manuf/ai/ScoringServlet.java:198-201 | after one more line, a flag holds exactly when it held before or the new line sets it |
| `Servlet.DecisionIgnoresOrder` | src/com/ibm/swg/iot4manuf/ai/ScoringServlet.java:198-201 | the flags only move from false to true, so any reordering of the lines gives the same decision |
| `Servlet.MoreOutputKeepsDecision` | src/com/ibm/swg/iot4manuf/ai/ScoringServlet.java:198-204 | once both markers have been seen, further output cannot make transcoding necessary again |
| `Servlet.RateNeedsItsCommas` | src/com/ibm/swg/iot4manuf/ai/ScoringServlet.java:199 | the delimiters are part of the marker: a line without a comma never counts as 44100 Hz |
| `Servlet.ArchSuffix` | src/com/ibm/swg/iot4manuf/ai/ScoringServlet.java:66 | `"64"` exactly when the architecture string contains `"64"`, otherwise `"32"` |
| `Servlet.OsTag` | src/com/ibm/swg/iot4manuf/ai/ScoringServlet.java:67 | macOS wins over Windows, which wins over Linux; any other system gives `""` |
| `Servlet.ResourceNamesIdentifyPlatform` | src/com/ibm/swg/iot4manuf/ai/ScoringServlet.java:66-71 | both tool names are their prefix followed by one shared platform suffix. Two platforms get the same names exactly when their system tag and word size agree |

## Left out

- The classification request is not modelled: iron-ajax, `FormData`, the header parsing and the `localize` calls. The reply is an input, and message keys stand for the localized texts.
- The waveform library is not modelled (`create`, `load`, `playPause`, `toggleMute`, `skipBackward`, `getDuration`, the `finish` handler, `toggleRec`). It is reduced to the plugins, regions, loaded URL and destroyed flag the elements set, and `getDuration()` is a parameter.
- Script-tag creation and `document.head` insertion are not modelled. The loader records the appended script names in order. The source sets `src` to a one-element array, which the browser turns into its string; the model uses the string.
- A resolver being called is not modelled as a callback. The environment runs the element's `InitializeWaveSurfer` when the element's resolver appears in the loader's `resolved` list.
- `round()` and IEEE-754 rounding in general are not modelled: numbers are exact reals, and `NaN` appears only for the `0 / 0` of a zero-length sound.
- ScriptLoader.LoadingScript.OnScriptLoaded: a script that fails to load is not modelled. `_loadScript` sets no `onerror`, so after such a failure the record stays unloaded and no request, earlier or later, is ever resolved.
- Sound.AISound.OnReply: a reply whose `majority` or `detail` is missing rather than empty is not modelled, because the datatype always carries both lists.
- Sound.AISound.OnReply: of the in-place sort of `majority`, only its head is modelled (the label). The order it leaves the rest of the reply in is not.
- Sound.AISound.Ready: the unused `colors = []` reset is not modelled.
- Scoring.AIScoring.OnScore: switching scoring on again while an earlier drain is still waiting on a child is excluded by its precondition. That would start a second, interleaved chain, which is a concurrency concern.
- Capture.AICapture.RecordingChanged: recordings are assumed to be delivered only by a recorder that was started at least once. This is a property of the recorder, not of the view, and it keeps the invariant that the last order was "start" exactly while recording.
- `_onRecord` (`ai-capture.js:164-166`) is the same statement as `takeSample` and is modelled by `Capture.AICapture.TakeSample`.
- `_stopPropagation` and the icon updates in both waveform elements are not modelled, because they are DOM concerns.
- `URL.createObjectURL` is not modelled; the object URL is a parameter.
- The servlet's HTTP proxying is not modelled: `doGet`/`doPost`, the TLS registry, temporary files, running the probe and the encoder, and the progress-reporting stream wrappers. The probe's output lines are the input of the decision.
- The servlet's class-path resource lookup and URL decoding of the tool names are not modelled; only the names are.
- The parameters view (`ai-parameters.js`) and the localisation mixin (`ai-localizable.js`) are not modelled, because they are form binding and framework glue.
- The drawer handling and the local-storage documents of the application shell are not modelled, because they are UI state.
