# DaltonLens colour-vision simulator: filter orchestration and worker progress protocol

This project models the core of the DaltonLens in-browser simulator of colour
vision deficiencies. The page (`assets/js/simulator.js`) sends the filter code
for the selected deficiency to a Pyodide worker
(`assets/js/simulator-worker.js`). It keeps the worker's results in a cache
keyed by that code text, and counts the filters still processing. The worker
runs each operation as a fixed sequence of awaited Python steps. It reports
`(label, percent, result?)` progress events and turns every exception into
a single error event at 100 %.

Modules:

- `Progress` (progress.dfy): the progress event, the wrapper built by
  `cbWithProgress`, and well-formed runs (percents non-decreasing, exactly one
  event at 100, which comes last).
- `ImageInput` (image_input.dfy): the resize rule for submitted images, and
  removal of the `data:…,` header before the image is sent to the worker.
- `Templates` (templates.dfy): `#{name}` substitution in a code template, and
  dropping the first and last lines. The substitution scans like the lazy
  regular expression `#\{(.*?)\}`. A reference renderer over literal text and
  placeholders shows that it replaces exactly the placeholders, for templates
  whose literal text never has `#` directly before `{` (a lone `#`, as in a
  Python comment, is fine).
- `Orchestration` (orchestration.dfy): the class `Orchestrator` holds
  `filterCache`, `numFiltersStillProcessing` and `currentImageDataURL`. Its
  methods are proved against the functions `Request`, `Terminal` and `Submit`.
  Lemmas replay any order of requests, worker replies and image submissions.
- `Worker` (worker.dfy): the class `PythonSimulator` with `doInit`, `init`,
  `applyFilter` and `setImage` as step-by-step methods. Each Pyodide call is a
  step that completes or throws. The methods are proved equal to trace
  functions that state the exact events for every failure position.
- `Strings` and `Wrappers`: `indexOf`, ASCII upper-casing, and `Option`.

The model follows the code as written, including these behaviours:

- `init` has no once-only guard. Every call re-runs the bootstrap and replaces
  `initCompletedPromise`.
- A cache hit decrements the counter although nothing incremented it.
- A failed filter (a `null` or empty result) never releases the counter. This
  disables the press-and-hold comparison (`HoldAllowed`) until some later cache
  hit decrements the counter again (`LaterHitReleasesGuard`).
- There is no generation tag. A reply computed for a previous image still fills
  the cache and the display after a new image is submitted
  (`StaleReplyAfterSubmit`).
- Two requests for the same code made before the first reply both call the
  worker (`OverlappingRequestsBothCall`).

## Model

| member | source | states |
|---|---|---|
| `Strings.IndexOf` | assets/js/simulator.js:166 | `indexOf` gives -1 exactly when the character is absent, else the index of its first occurrence |
| `Strings.Upper` | assets/js/simulator.js:210 | upper-casing keeps the length and maps every ASCII lower-case letter to its capital, leaving other characters alone |
| `Progress.EveryEventIsShown` | assets/js/simulator.js:51-52 | over any event sequence, the progress display receives every event's text and percent, in order |
| `Progress.DoneResultsOfEvents` | assets/js/simulator.js:53-55 | the done-callback is invoked once per event at 100, with that event's result (`null` when omitted), in order |
| `Progress.RunCallsDoneOnce` | assets/js/simulator.js:50-56 | on a well-formed run the done-callback fires exactly once, with the result of the last event |
| `ImageInput.ScaledHeight` | assets/js/simulator.js:148 | the height is 800·h/w rounded half up: 2w·r ≤ 1600h + w < 2w·r + 2w |
| `ImageInput.ResizedSize` | assets/js/simulator.js:145-154 | a width above 1024 becomes 800 with the height rounded from 800·h/w; a smaller image keeps its size; the width is never above 1024 |
| `ImageInput.ResizeNeverGrows` | assets/js/simulator.js:145-154 | resizing never makes either dimension larger |
| `ImageInput.StripHeader` | assets/js/simulator.js:166 | the payload is the suffix after the first comma, or the whole data URL when it has no comma |
| `ImageInput.StripDataUrlHeader` | assets/js/simulator.js:165-166 | stripping a comma-free header followed by `,` gives back exactly the data |
| `Templates.CloseBrace` | assets/js/simulator.js:214 | the lazy `.*?\}` ends at the first `}` when no line terminator precedes it, and otherwise does not match |
| `Templates.Substitute` | assets/js/simulator.js:214 | text in which no `#` is directly followed by `{` passes through unchanged; its partner `SubstituteRenders` states what happens to the placeholders |
| `Templates.SubstituteRenders` | assets/js/simulator.js:214 | in a template of literal text (no `#` directly before `{`, maximal runs) and `#{name}` placeholders (no `}` or line break in the name), each placeholder is replaced by its value (missing names by `undefined`) and the text is kept |
| `Templates.SplitLines` | assets/js/simulator.js:215 | splitting on `\r?\n` yields at least one line, no line contains `\n`, and no line contains `\r` when the text has none |
| `Templates.SplitJoin` | assets/js/simulator.js:215-216 | splitting recovers the lines that were joined with `\n`, provided no line but the last ends in `\r` (`\r\n` endings are covered by `SplitJoinCRLF`) |
| `Templates.SplitJoinCRLF` | assets/js/simulator.js:215 | splitting recovers the lines that were joined with `\r\n`: the `\r` before each break is dropped with it |
| `Templates.JoinSplit` | assets/js/simulator.js:215-216 | joining the split lines with `\n` recovers any text without `\r` |
| `Templates.InnerLines` | assets/js/simulator.js:215-216 | a text of one line gives the empty string; for a text without `\r` of k ≥ 3 lines, the result splits into exactly lines 2..k-1 |
| `Templates.InnerLinesOfJoin` | assets/js/simulator.js:215-216 | of k ≥ 2 lines, the slice keeps lines 2..k-1 joined with `\n` |
| `Templates.PlaceholderValues` | assets/js/simulator.js:209-214 | a `#{deficiency}` placeholder renders as the upper-cased deficiency, `#{severity}` as the severity, and any other name as `undefined` |
| `Templates.GenerateCode` | assets/js/simulator.js:204-216 | code is produced exactly when the page has the template in use: `none` when no deficiency is selected, else the simulation method's; its partner `GeneratedCodeKeepsInnerLines` states the text |
| `Templates.GeneratedCodeKeepsInnerLines` | assets/js/simulator.js:204-216 | for a well-formed template (as in `SubstituteRenders`) whose rendered text has lines l1..lk, k ≥ 2, the generated code uses the `none` template when no deficiency is selected, and is lines 2..k-1 |
| `Orchestration.HoldAllowed` | assets/js/simulator.js:256 | under the invariant, a mousedown is accepted exactly when no filter is counted as processing; partners `FailedFilterKeepsBusy` and `LaterHitReleasesGuard` |
| `Orchestration.Orchestrator.constructor` | assets/js/simulator.js:7-28 | the page starts with an empty cache, a zero counter and no image |
| `Orchestration.Orchestrator.UpdateImage` | assets/js/simulator.js:98-106 | shows the image, keeps the cache, and decrements the counter, clamped at zero |
| `Orchestration.Orchestrator.RequestFilter` | assets/js/simulator.js:84-126 | keeps the invariant, and its new state and effects are those of `Request`: no deficiency, cache hit or cache miss |
| `Orchestration.Orchestrator.OnTerminal` | assets/js/simulator.js:120-125 | keeps the invariant, and its new state and effects are those of `Terminal` |
| `Orchestration.Orchestrator.SubmitImage` | assets/js/simulator.js:139-170 | keeps the invariant, and its new state and effects are those of `Submit` |
| `Orchestration.RequestNoneIsInert` | assets/js/simulator.js:88-93 | with deficiency `none`, cache and counter are untouched, the worker is not called, and the current image is shown only if set |
| `Orchestration.RequestHit` | assets/js/simulator.js:108-113 | on a hit the cached image is shown, the worker is not called, the cache is kept and the counter becomes max(0, n-1) |
| `Orchestration.RequestMiss` | assets/js/simulator.js:115-125 | on a miss exactly one `applyFilter` is issued with the code, the counter rises by one, and nothing else changes |
| `Orchestration.TerminalStores` | assets/js/simulator.js:98-124 | a non-empty result is stored under its code and shown, other entries are kept, and the counter becomes max(0, n-1) |
| `Orchestration.TerminalIgnoresFailure` | assets/js/simulator.js:120-125 | a `null` or empty result changes neither the cache nor the counter, and shows nothing |
| `Orchestration.SubmitEmptiesCache` | assets/js/simulator.js:161-169 | submission shows the image, sends the text after the first comma, empties the cache, and re-applies the filter as a miss unless the deficiency is `none` |
| `Orchestration.StepKeepsInv` | assets/js/simulator.js:98-168 | every input keeps the counter non-negative and the cached results non-empty |
| `Orchestration.ReplayKeepsInv` | assets/js/simulator.js:98-168 | for requests, replies and submissions in any order, the counter is never negative and no empty result is cached |
| `Orchestration.CounterBoundedByCalls` | assets/js/simulator.js:102-119 | the counter never exceeds its start plus the number of `applyFilter` calls issued |
| `Orchestration.RepeatRequestServedFromCache` | assets/js/simulator.js:109-125 | request, successful reply, same request again: the worker is called only once and the second request shows the cached result |
| `Orchestration.OverlappingRequestsBothCall` | assets/js/simulator.js:109-120 | two requests for the same code before any reply both call the worker and raise the counter by two |
| `Orchestration.FailedFilterKeepsBusy` | assets/js/simulator.js:119-125 | a miss answered by `null` leaves the counter raised, so the press-and-hold guard (line 256) rejects mousedowns |
| `Orchestration.LaterHitReleasesGuard` | assets/js/simulator.js:108-125 | from a zero counter, a miss answered by `null` leaves the guard (line 256) closed, and a later cache hit opens it again |
| `Orchestration.StaleReplyAfterSubmit` | assets/js/simulator.js:109-169 | request, new image (whose re-application calls the worker again), then the reply for the old image: that stale result is cached for the new image and shown, and a later request is served it without a worker call |
| `Worker.FirstThrow` | assets/js/simulator-worker.js:7-43 | the position of the first step that throws: all steps before it succeed |
| `Worker.PythonSimulator.constructor` | assets/js/simulator-worker.js:4-4 | a new simulator has no runtime, no bootstrap promise and no input image |
| `Worker.PythonSimulator.DoInit` | assets/js/simulator-worker.js:5-44 | emits each stage's event before its step, stops at the first step that throws, sets the runtime once `loadPyodide` succeeds, and completes after `done` |
| `Worker.PythonSimulator.Init` | assets/js/simulator-worker.js:46-53 | re-runs the bootstrap on every call, replaces the promise by its outcome, and emits `InitTrace` with no exception |
| `Worker.PythonSimulator.ApplyFilter` | assets/js/simulator-worker.js:55-73 | emits exactly `ApplyFilterTrace` for the bootstrap state and step outcomes, and changes nothing |
| `Worker.PythonSimulator.SetImage` | assets/js/simulator-worker.js:75-88 | sets `input_image_url` unless the bootstrap failed, and emits exactly `SetImageTrace` |
| `Worker.InitSuccessTrace` | assets/js/simulator-worker.js:7-43 | a successful bootstrap reports percents 5, 50, 60, 80, 90, 100, ending with `("done", 100, "Empty Result")` |
| `Worker.InitFailureTrace` | assets/js/simulator-worker.js:46-53 | a failing step is followed by exactly one `("ERROR: Python init failed :-(", 100, null)`, after the stage events up to that step |
| `Worker.InitTraceIsRun` | assets/js/simulator-worker.js:5-53 | the events of `init` are a well-formed run |
| `Worker.ApplyFilterTraceIsRun` | assets/js/simulator-worker.js:55-73 | the events of `applyFilter` are a well-formed run |
| `Worker.SetImageTraceIsRun` | assets/js/simulator-worker.js:75-88 | the events of `setImage` are a well-formed run |
| `Worker.ApplyFilterOutcome` | assets/js/simulator-worker.js:55-72 | success gives 30, 80 and then `("done", 100, url)`; any failure ends in the single applyFilter error; a failed bootstrap gives that error alone |
| `Worker.SetImageOutcome` | assets/js/simulator-worker.js:75-87 | success gives 50 and then `done` with the step's value; any failure ends in the single setImage error event |
| `Worker.FilterCompletesOnce` | assets/js/simulator-worker.js:55-72 | through `cbWithProgress`, the page's completion handler runs exactly once per filter, with the image on success and `null` otherwise |
| `Worker.InitAndSetImageCompleteOnce` | assets/js/simulator-worker.js:46-87 | the done-callbacks of `init` and `setImage` run exactly once |

## Left out

- DOM work is not modelled: `showProgress`, `setClassDisplay`, style changes, the large-image warning, `ready` and the listener wiring. Image displays appear only as `Display` effects, and the press-and-hold handlers only as the guard `HoldAllowed`.
- `urlToDataUrl` and `loadFile` are not modelled: they are `fetch` and `FileReader` I/O that produce the URL handed to `updateWithImageURL`.
- Canvas `drawImage` and `toDataURL` are browser graphics. Only the size rule is modelled, and the resulting data URL is the `dataUrl` parameter of `SubmitImage`.
- Worker creation, `Comlink.wrap`, `Comlink.proxy` and `Comlink.expose` are messaging plumbing. The order in which replies cross the worker boundary is the order of the `Input` sequence, which the environment chooses.
- `loadPyodide`, `loadPackage`, `runPython` and the embedded Python code are a foreign runtime. Each is an opaque step that completes (possibly with a value) or throws.
- A still-pending `initCompletedPromise` is not modelled. Operations that wait for it run once it has settled, so a bootstrap that never settles is not represented.
- `startPyodide` is not modelled beyond `init`. Its done-callback only reveals the simulator section.
- The unused `runPython(cb)` stub of the worker is not modelled.
- The severity `severitySlider.value / 10.0` and its number-to-string formatting are floating point. The substituted severity is an opaque string.
- The radio-button reads (`currentMethod`, `currentCVD`) become parameters. The generated code is written to and read back from the `-code` element; the model does not capture how `innerHTML` escapes HTML on that round trip.
- `ImageInput.ScaledHeight`: computes the rounding in integers. Double-precision `800.0*h/w` rounds the same way for any realistic image size, but that is not proved.
- `Strings.Upper`: only ASCII letters are upper-cased; `toUpperCase` also maps other Unicode letters, which the deficiency names do not contain.
- `Templates.Lookup`: a placeholder name inherited by every JavaScript object (such as `constructor`) is treated as missing and gives `undefined`.
- `Orchestration.Request`: the filter cache is a plain map. In the page, `code in filterCache` is also true for names inherited from `Object.prototype` (such as `toString`), and storing under `__proto__` stores nothing; the model treats such a code as a miss and as an ordinary store. Filter code generated from the page's multi-line templates is not expected to equal these names.
- `console.log` in `setImage` is not modelled.
- The model assumes the worker proxy `pythonSimulator` exists. A filter request or image submission made before `startPyodide` has bound it throws partway through; a request throws after the counter has already been raised. That case is not modelled.
