# Verified model of the vawsaper audio core

vawsaper is a browser audio sample player and visualiser. This project models its sequential core in Dafny and proves properties of that model:

- the decoded-buffer cache (`useSoundBufferLoader`): a map from URL to decoded buffer, filled by a batch load.
- the playback session manager (`useSoundEffect`): a set of active sources, with play, cleanup and stop-all.
- the audio context lifecycle (`useAudioContext`): one retained context that can be created, closed and resumed.
- the gain node manager (`useGainNodeManager`): one gain node per context, and a clamped master volume.
- the analysis adapters' computational parts:
  - the waveform recorder's peak quantiser, bounded history, recording flag and render-tick sampling (`useWaveformVisualizer`);
  - the frequency bar layout and its draw guard (`useFrequency`).
- the derivations of the `Sources` component: buffer info, "any loaded", and the play, load and remove actions.

Browser objects are abstract:

- URLs are strings.
- A decoded buffer is a record of its duration, sample rate and channel count, plus an identity.
- Nodes and sources are opaque ids.
- An `AudioContext` is an object whose only field is its state: suspended, running or closed.
- Fetching, decoding, the analyser's current data, and whether `start(0)` throws are oracle parameters.
- The calls the session manager makes into the audio graph and the active set are recorded in order in a trace (`log`). This is how orderings such as "resume before start" are stated.

Each asynchronous call is modelled as one atomic, sequential step.

Modules, one per source file:

- `AudioGraph` (audio_graph.dfy) holds the shared stand-ins.
- `SoundBufferLoader` (sound_buffer_loader.dfy)
- `WaveformVisualizer` (waveform_visualizer.dfy)
- `Frequency` (frequency.dfy)
- `SoundEffect` (sound_effect.dfy)
- `AudioContextManager` (audio_context.dfy)
- `GainNodeManager` (gain_node.dfy)
- `Sources` (sources.dfy)

Behaviour of the code that the model keeps, and that a reader might not expect:

- **Duplicate fetches.** The cache skips only the URLs that are already cached when a load starts. A URL listed twice in one batch is fetched twice, and overlapping batches fetch independently. `NewUrlsKeepsDuplicates` states this.
- **When a session joins the active set.** The source is added to the set before `start(0)` is called, and removed again if `start` throws. The trace records this order as `Created`, `Added`, `Started`; `JoinsBeforeStart` states it.
- **Stop-all without a graph.** Stop-all does not look at the context at all. With an empty set it does nothing.
- **No failed status.** The cache stores successes only, so a URL that failed to load is simply absent.
- **Initial context state.** The browser may create a context suspended or running, depending on its autoplay policy, so `CreateAudioContext` takes that choice as a parameter.

## Model

| member | source | states |
|---|---|---|
| `SoundBufferLoader.SoundBufferLoader.constructor` | src/hooks/useSoundBufferLoader.ts:9-10 | the cache starts empty and the loading flag false |
| `SoundBufferLoader.SoundBufferLoader.Load` | src/hooks/useSoundBufferLoader.ts:12-59 | fetches exactly the URLs not cached at call time, in order; the new cache is the old one plus every fetched URL that loaded; the loading flag is written `[true, false]` for a non-trivial batch and never for a trivial one, and ends false |
| `SoundBufferLoader.SoundBufferLoader.InsertResults` | src/hooks/useSoundBufferLoader.ts:52-55 | the insertion loop skips null results and writes each loaded buffer under its URL, in result order; a later result for the same URL overwrites an earlier one |
| `SoundBufferLoader.Attempt` | src/hooks/useSoundBufferLoader.ts:30-46 | one URL loads iff its fetch resolves, the response is ok, its body can be read and it decodes; a loaded result carries that URL and the decoded buffer |
| `SoundBufferLoader.NewUrls` | src/hooks/useSoundBufferLoader.ts:19-21 | the filtered batch is no longer than the request and holds no cached URL |
| `SoundBufferLoader.Attempts` | src/hooks/useSoundBufferLoader.ts:28-50 | one result per URL, in order, each depending only on its own URL's fetch and decode (siblings are independent) |
| `SoundBufferLoader.NewUrlsMembers` | src/hooks/useSoundBufferLoader.ts:19-21 | a URL is fetched iff it is requested and not cached, so cached URLs are never re-fetched |
| `SoundBufferLoader.NewUrlsKeepsDuplicates` | src/hooks/useSoundBufferLoader.ts:19-29 | an uncached URL is fetched as many times as it is listed (no deduplication) |
| `SoundBufferLoader.NewUrlsEmptyIff` | src/hooks/useSoundBufferLoader.ts:17-23 | the batch is trivial iff every requested URL is already cached, the empty list included |
| `SoundBufferLoader.AfterLoadAllCached` | src/hooks/useSoundBufferLoader.ts:17-23 | an empty or fully cached batch fetches nothing and leaves the cache unchanged |
| `SoundBufferLoader.InsertAllAttempts` | src/hooks/useSoundBufferLoader.ts:50-55 | inserting the non-null results adds exactly the URLs that loaded, each with its decoded buffer |
| `SoundBufferLoader.AfterLoadCache` | src/hooks/useSoundBufferLoader.ts:30-55 | after a load a key is cached iff it was cached or was requested and loaded; old entries keep their buffer; a failed URL that was not cached stays absent |
| `SoundBufferLoader.SoundBufferLoader.Get` | src/hooks/useSoundBufferLoader.ts:63-67 | returns the cached buffer of the URL exactly when it is cached, and reads nothing else |
| `SoundBufferLoader.SoundBufferLoader.Clear` | src/hooks/useSoundBufferLoader.ts:69-71 | the cache becomes empty; the flag is untouched |
| `SoundBufferLoader.SoundBufferLoader.Remove` | src/hooks/useSoundBufferLoader.ts:73-75 | one flag per URL, true iff that URL was still present just before its own deletion (a repeat yields false); afterwards none of the URLs is cached and every other key is kept |
| `WaveformVisualizer.Deviation` | src/hooks/useWaveformVisualizer.ts:11 | the distance of a byte sample from 128: at most 128, and 0 only for 128 |
| `WaveformVisualizer.PeakDeviation` | src/hooks/useWaveformVisualizer.ts:9-13 | the tracked peak of byte samples never exceeds 128 |
| `WaveformVisualizer.Strided` | src/hooks/useWaveformVisualizer.ts:10 | the scan visits exactly the samples at indices 0, 4, 8, ... |
| `WaveformVisualizer.PeakDeviationIsMax` | src/hooks/useWaveformVisualizer.ts:9-13 | the tracked peak bounds the deviation from 128 of every scanned sample and is attained by one of them (0 for no samples); it is at most 128 for byte samples |
| `WaveformVisualizer.PeakScan` | src/hooks/useWaveformVisualizer.ts:9-13 | the stride-4 loop ends with the peak deviation of exactly the samples at indices 0, 4, 8, ... |
| `WaveformVisualizer.CalculateAmplitude` | src/hooks/useWaveformVisualizer.ts:8-15 | the stride-4 loop computes the quantised peak of the visited samples, an integer in [0, 100] |
| `WaveformVisualizer.Quantize` | src/hooks/useWaveformVisualizer.ts:14 | the quantised value is non-negative; a silent peak gives 0 and the full peak 128 gives 100 |
| `WaveformVisualizer.Amplitude` | src/hooks/useWaveformVisualizer.ts:8-15 | the amplitude is non-negative, and 0 for an empty buffer |
| `WaveformVisualizer.QuantizeRounds` | src/hooks/useWaveformVisualizer.ts:14 | the quantised value is peak·100/128 rounded to the nearest integer, halves up |
| `WaveformVisualizer.QuantizeExact` | src/hooks/useWaveformVisualizer.ts:14 | the real-number rounding equals the integer formula (100·peak + 64) div 128 |
| `WaveformVisualizer.QuantizeRange` | src/hooks/useWaveformVisualizer.ts:6-14 | a peak in [0, 128] quantises into [0, 100] |
| `WaveformVisualizer.QuantizeMonotone` | src/hooks/useWaveformVisualizer.ts:14 | quantisation is monotone in the peak |
| `WaveformVisualizer.AmplitudeRange` | src/hooks/useWaveformVisualizer.ts:8-15 | every amplitude of byte samples is in [0, 100] |
| `WaveformVisualizer.AmplitudeSilent` | src/hooks/useWaveformVisualizer.ts:8-15 | an empty buffer, or one at 128 on every visited index, gives 0 |
| `WaveformVisualizer.AmplitudeReadsStride` | src/hooks/useWaveformVisualizer.ts:10 | two buffers of equal length that agree on indices 0, 4, 8, ... have the same amplitude |
| `WaveformVisualizer.UpdateWaveformData` | src/hooks/useWaveformVisualizer.ts:50-58 | the result is the last min(500, n+1) entries of the history plus the new one; its last entry is the new amplitude; below the cap it is a plain append; at 500 exactly the oldest is dropped |
| `WaveformVisualizer.UpdateKeepsScale` | src/hooks/useWaveformVisualizer.ts:50-58 | appending a value in [0, 100] keeps the whole history within [0, 100] |
| `WaveformVisualizer.WaveformRecorder.constructor` | src/hooks/useWaveformVisualizer.ts:73-76 | empty history, not recording, no analyser and no buffer |
| `WaveformVisualizer.WaveformRecorder.StartRecording` | src/hooks/useWaveformVisualizer.ts:81 | sets the flag and changes nothing else |
| `WaveformVisualizer.WaveformRecorder.StopRecording` | src/hooks/useWaveformVisualizer.ts:82 | clears the flag and changes nothing else |
| `WaveformVisualizer.WaveformRecorder.ResetWaveform` | src/hooks/useWaveformVisualizer.ts:83-86 | empties the history and clears the flag |
| `WaveformVisualizer.WaveformRecorder.ConnectAnalyser` | src/hooks/useWaveformVisualizer.ts:116-136 | an analyser with FFT size 2048 and a fresh 2048-byte buffer exist iff both context and gain node do |
| `WaveformVisualizer.WaveformRecorder.RenderWaveform` | src/hooks/useWaveformVisualizer.ts:88-101 | a no-op on the history unless analyser, buffer, canvas and recording flag are all present; otherwise it refills the buffer from the analyser and appends exactly one amplitude of that data, keeping the history within 500 entries |
| `AudioGraph.ReadAnalyser` | src/hooks/useWaveformVisualizer.ts:98 | the analyser overwrites the whole reused buffer with its current data |
| `Frequency.BarWidth` | src/hooks/useFrequency.ts:89 | with N > 0 bins, N bars of this width span 2.5 canvas widths; the width is non-negative on a non-negative canvas |
| `Frequency.Bar` | src/hooks/useFrequency.ts:94-103 | a bar's height is in [0, 204], and its right edge is where bar i + 1 starts |
| `Frequency.CalculateFrequencyBars` | src/hooks/useFrequency.ts:84-109 | one bar per bin; bar i has height data[i]·0.8, colour `rgb(255,255,255)`, width (W/N)·2.5 and x = i·width; bar 0 starts at 0 and each bar starts where the previous one ends |
| `Frequency.LayoutIncreasing` | src/hooks/useFrequency.ts:91-105 | on a canvas of positive width the x-offsets are strictly increasing |
| `Frequency.LayoutBars` | src/hooks/useFrequency.ts:89-96 | every bar's height is in [0, 204], its width is (W/N)·2.5 and its colour is white |
| `Frequency.FrequencyView.constructor` | src/hooks/useFrequency.ts:23-25 | no analyser, no buffer and no canvas context at first |
| `Frequency.FrequencyView.ConnectAnalyser` | src/hooks/useFrequency.ts:27-50 | an analyser with FFT size 128 and a fresh 64-bin buffer exist iff both context and gain node do |
| `Frequency.FrequencyView.DrawFrequencyBars` | src/hooks/useFrequency.ts:52-66 | nothing happens without analyser, buffer or canvas; otherwise the buffer is refilled, a 2D context is obtained once and kept, and with one the bars of the refilled data are laid out |
| `SoundEffect.SoundEffect.constructor` | src/hooks/useSoundEffect.ts:8-12 | binds the context and output node; no active sources |
| `SoundEffect.SoundEffect.Target` | src/hooks/useSoundEffect.ts:27 | a source connects to the output node when there is one, and otherwise to the context's destination |
| `SoundEffect.SoundEffect.PlayAudioBuffer` | src/hooks/useSoundEffect.ts:14-47 | no context: nothing changes; a suspended context is resumed before any source is created; a context that is closed after the resume check: nothing is added; otherwise exactly one new source is created, bound to the buffer and connected to the output node or else the destination, logged as added to the set (`Added`) before it is logged as started (`Started`), and removed by cleanup at once if `start` throws |
| `SoundEffect.SoundEffect.StartSource` | src/hooks/useSoundEffect.ts:24-44 | a fresh source id is created for the buffer and connected to the output node or else the destination; it is added to the set, registered with its listener and started, and the trace logs `Created`, `Added`, `Started` in that order; if `start` throws, it is cleaned up at once, so it ends active iff `start` succeeded |
| `SoundEffect.JoinsBeforeStart` | src/hooks/useSoundEffect.ts:24-40 | in the calls of a play, every `Started(s)` comes directly after `Added(s)`: the source joins the set before it is started |
| `SoundEffect.PlayCreatesOne` | src/hooks/useSoundEffect.ts:24-44 | a play past the checks creates exactly one source, and it is bound to the requested buffer |
| `SoundEffect.SoundEffect.Cleanup` | src/hooks/useSoundEffect.ts:32-35 | disconnects the source and removes only it from the set; idempotent on the set |
| `SoundEffect.SoundEffect.OnEnded` | src/hooks/useSoundEffect.ts:37 | the once-only `ended` listener runs cleanup the first time and does nothing afterwards |
| `SoundEffect.StopEffects` | src/hooks/useSoundEffect.ts:50-54 | stop-all issues `stop` then `disconnect` for each visited source, in visiting order |
| `SoundEffect.SoundEffect.StopAllSounds` | src/hooks/useSoundEffect.ts:49-56 | stops and disconnects each active source exactly once and leaves the set empty; an empty set changes nothing |
| `AudioContextManager.AudioContextManager.constructor` | src/hooks/useAudioContext.ts:6 | the reference starts null |
| `AudioContextManager.AudioContextManager.CreateAudioContext` | src/hooks/useAudioContext.ts:8-17 | returns the retained context, unchanged, when it exists and is not closed; otherwise it makes a fresh context, retains it and returns it |
| `AudioContextManager.AudioContextManager.CloseAudioContext` | src/hooks/useAudioContext.ts:19-25 | a no-op with no context or a closed one; otherwise the context becomes closed and the reference is cleared |
| `AudioContextManager.AudioContextManager.ResumeAudioContext` | src/hooks/useAudioContext.ts:27-35 | only a suspended context changes, and it becomes running; the reference never changes |
| `AudioContextManager.CreateTwice` | src/hooks/useAudioContext.ts:8-16 | two creates with no close between them yield the same context |
| `AudioContextManager.CloseThenCreate` | src/hooks/useAudioContext.ts:8-25 | after a close the next create builds a fresh context |
| `GainNodeManager.Clamp` | src/hooks/useGainNodeManager.ts:34 | the stored gain is in [0, 1]; it equals the value when the value is in [0, 1]; below 0 it is 0 and above 1 it is 1 |
| `GainNodeManager.ClampIdempotent` | src/hooks/useGainNodeManager.ts:34 | clamping twice is clamping once |
| `GainNodeManager.GainNode.constructor` | src/hooks/useGainNodeManager.ts:18-20 | a new gain node has gain 1 and is connected to the destination |
| `GainNodeManager.GainNodeManager.constructor` | src/hooks/useGainNodeManager.ts:12-22 | the first effect run: a gain node at gain 1 iff there is a context |
| `GainNodeManager.GainNodeManager.ContextChanged` | src/hooks/useGainNodeManager.ts:12-28 | on a context change the old node is disconnected and the state reset; then there is a fresh node at gain 1 iff there is a new context; the same context changes nothing |
| `GainNodeManager.GainNodeManager.UpdateMasterVolume` | src/hooks/useGainNodeManager.ts:30-38 | with no gain node nothing changes; otherwise the gain becomes the clamped value |
| `Sources.GetBufferInfo` | src/app/components/Sources/index.tsx:90-109 | `isLoaded` iff the URL is cached; all zeros when absent; otherwise the buffer's duration, sample rate and channel count |
| `Sources.StatusLabel` | src/app/components/Sources/index.tsx:148 | the label is "Cached" iff the info says loaded, and otherwise "Pending" |
| `Sources.StatusLabelCached` | src/app/components/Sources/index.tsx:148 | the status is "Cached" iff the buffer is cached, else "Pending" |
| `Sources.IsAnyAudioLoaded` | src/app/components/Sources/index.tsx:111-118 | true iff some listed URL is cached |
| `Sources.BuffersFor` | src/app/components/Sources/index.tsx:59-64 | no more buffers than requested URLs, and each one is a cached buffer |
| `Sources.BuffersForAppend` | src/app/components/Sources/index.tsx:59-64 | the buffers to play for a concatenation of requests are the concatenated buffers, so request order is kept |
| `Sources.BuffersForAllCached` | src/app/components/Sources/index.tsx:59-64 | when every URL is cached, each URL's buffer is played, in order |
| `Sources.BuffersForNoneCached` | src/app/components/Sources/index.tsx:59-64 | absent URLs are skipped silently: with none cached, nothing is played |
| `Sources.Sources.PlaySoundFromUrl` | src/app/components/Sources/index.tsx:45-55 | an uncached URL plays nothing and changes nothing; otherwise exactly that URL's buffer is played |
| `Sources.Sources.PlaySoundsFromUrls` | src/app/components/Sources/index.tsx:57-69 | the cached buffers of the URLs are played in request order and absent ones are skipped; nothing is played when the context is absent or closed |
| `Sources.Sources.LoadAudioBuffer` | src/app/components/Sources/index.tsx:71-80 | a no-op without a context; otherwise the cache becomes what loading `[url]` gives |
| `Sources.Sources.RemoveAudioBufferByUrl` | src/app/components/Sources/index.tsx:82-88 | exactly `url` leaves the cache |

## Left out

- Drawing: `drawWaveform`, the `fillRect` calls of `drawFrequencyBars`, the recording indicator, and all presentation components (buttons, titles, layout, SVG icons, the visualisation panels and their ticker registration). They are graphics side effects.
- `calculateRMS` and the rest of src/hooks/useAudioMasterGain.ts. This is floating-point square-root numerics; the analyser wiring there follows the same guard pattern modelled here.
- Browser APIs: `fetch`, `arrayBuffer`, `decodeAudioData`, `createBufferSource`, `createAnalyser`, `createGain`, `connect` and `disconnect`. They are oracles or opaque ids. A decoded buffer carries only the three fields the source list shows, not its sample frames.
- Interleaving of asynchronous steps: racing `load` calls, `resume` and `close` settling out of order, and the fire-and-forget `playAudioBuffer` calls of `playSoundsFromUrls` overlapping around their `await`. Each call is one atomic step.
- React lifecycles: `useEffect`, `useCallback`, `useMemo` and `forceUpdate`. An effect run is modelled as `ConnectAnalyser` or `ContextChanged`. The refs `isRecordingRef` and `waveformDataRef` are assumed to be in step with the state they mirror; in the browser they catch up one render later.
- All console logging: failed loads, failed starts, and the missing-buffer warning of `playSoundFromUrl`. The HTTP status text of a failure is also left out.
- Display formatting (`toFixed`, the "-" placeholders) and the application wiring in src/app/page.tsx, which loads the first two URLs at start-up.
- The browser suspending a running context on its own. The code never suspends a context, so suspension is only possible as the initial state.
- CalculateFrequencyBars: does not model floating-point accumulation. Bar geometry is computed over the reals, so `x += barWidth` is exactly `i·width`; in doubles the offsets can drift by rounding.
- GainNodeManager.Clamp: does not model a NaN volume, for which `Math.max(0, Math.min(1, NaN))` is NaN; the model works over the reals.
- SoundBufferLoader.SoundBufferLoader.Load: the fetch and decode oracles give the same answer for a URL listed twice in one batch. The model keeps both fetches but not the possibility that they settle differently.
- SoundEffect.SoundEffect.StopAllSounds: does not model the visiting order of the JavaScript `Set`, which is insertion order. The model visits the set in an unspecified order.
- SoundEffect.SoundEffect.StopAllSounds: does not model clearing `onended`. It is not modelled because it does not unregister the cleanup added with `addEventListener`. `OnEnded` still runs that cleanup after a stop, and the cleanup is idempotent on the set.
