/**
 * The page-side orchestration of filters (assets/js/simulator.js): the filter
 * cache, the counter of filters still processing, and the current image,
 * driven by three inputs — a filter request (`applyFilter`), the terminal
 * progress event of a worker `applyFilter` call (the completion closure), and
 * the submission of a new image (`bufferImage.onload`). The worker's replies
 * arrive in an order the environment chooses.
 */
module Orchestration {
  import opened Wrappers
  import ImageInput

  /** What the page does towards the outside, in order. */
  datatype Effect =
    | Display(url: string)           // `currentImage.src = url`
    | CallSetImage(payload: string)  // `pythonSimulator.setImage(payload, …)`
    | CallApplyFilter(code: string)  // `pythonSimulator.applyFilter(code, …)`

  /** `filterCache`, `numFiltersStillProcessing` and `currentImageDataURL`; the
      empty string stands for the initial `undefined`, which the code's
      truthiness test treats alike. */
  datatype State = State(cache: map<string, string>, inFlight: int, currentImage: string)

  /** The state after an input, and the effects of the input. */
  datatype Outcome = Outcome(next: State, effects: seq<Effect>)

  /** The counter is never negative and only non-empty results are cached. */
  predicate Inv(st: State)
  {
    st.inFlight >= 0 && forall code :: code in st.cache ==> st.cache[code] != ""
  }

  /** The decrement in `updateImage` with its safety net at zero. */
  function Release(n: int): int
  {
    if n - 1 < 0 then 0 else n - 1
  }

  /** Specification of `applyFilter` for the selected deficiency `cvd` and the
      generated code text `code`. */
  function Request(st: State, cvd: string, code: string): Outcome
  {
    if cvd == "none" then
      Outcome(st, if st.currentImage != "" then [Display(st.currentImage)] else [])
    else if code in st.cache then
      Outcome(st.(inFlight := Release(st.inFlight)), [Display(st.cache[code])])
    else
      Outcome(st.(inFlight := st.inFlight + 1), [CallApplyFilter(code)])
  }

  /** Specification of the completion closure given to the worker's `applyFilter`:
      it runs with the terminal event's result, and acts only on a truthy one. */
  function Terminal(st: State, code: string, result: Option<string>): Outcome
  {
    if result.Some? && result.value != "" then
      Outcome(State(st.cache[code := result.value], Release(st.inFlight), st.currentImage),
              [Display(result.value)])
    else
      Outcome(st, [])
  }

  /** Specification of `bufferImage.onload` once the canvas has produced
      `dataUrl`: show it, send it without its header, empty the cache and
      re-apply the selected filter. */
  function Submit(st: State, dataUrl: string, cvd: string, code: string): Outcome
  {
    var reapplied := Request(State(map[], st.inFlight, dataUrl), cvd, code);
    Outcome(reapplied.next,
            [Display(dataUrl), CallSetImage(ImageInput.StripHeader(dataUrl))] + reapplied.effects)
  }

  /** The press-and-hold guard: a mousedown is ignored while filters are processing. */
  predicate HoldAllowed(st: State): (ok: bool)
    ensures Inv(st) ==> (ok <==> st.inFlight == 0)
  {
    !(st.inFlight > 0)
  }

  /** The page's state in place, as the module-level variables of the script. */
  class Orchestrator {
    var cache: map<string, string>
    var inFlight: int
    var currentImage: string

    function Snapshot(): State
      reads this
    {
      State(cache, inFlight, currentImage)
    }

    ghost predicate Valid()
      reads this
    {
      Inv(Snapshot())
    }

    constructor ()
      ensures Valid() && Snapshot() == State(map[], 0, "")
    {
      cache := map[];
      inFlight := 0;
      currentImage := "";
    }

    /** The `updateImage` closure: show the image and release one filter. */
    method UpdateImage(url: string) returns (effects: seq<Effect>)
      modifies this
      ensures cache == old(cache) && currentImage == old(currentImage)
      ensures inFlight == Release(old(inFlight))
      ensures effects == [Display(url)]
    {
      effects := [Display(url)];
      inFlight := inFlight - 1;
      if inFlight < 0 {
        inFlight := 0;
      }
    }

    method RequestFilter(cvd: string, code: string) returns (effects: seq<Effect>)
      requires Valid()
      modifies this
      ensures Valid()
      ensures Outcome(Snapshot(), effects) == Request(old(Snapshot()), cvd, code)
    {
      if cvd == "none" {
        effects := if currentImage != "" then [Display(currentImage)] else [];
        return;
      }
      if code in cache {
        effects := UpdateImage(cache[code]);
        return;
      }
      inFlight := inFlight + 1;
      effects := [CallApplyFilter(code)];
    }

    method OnTerminal(code: string, result: Option<string>) returns (effects: seq<Effect>)
      requires Valid()
      modifies this
      ensures Valid()
      ensures Outcome(Snapshot(), effects) == Terminal(old(Snapshot()), code, result)
    {
      effects := [];
      if result.Some? && result.value != "" {
        cache := cache[code := result.value];
        effects := UpdateImage(result.value);
      }
    }

    method SubmitImage(dataUrl: string, cvd: string, code: string) returns (effects: seq<Effect>)
      requires Valid()
      modifies this
      ensures Valid()
      ensures Outcome(Snapshot(), effects) == Submit(old(Snapshot()), dataUrl, cvd, code)
    {
      currentImage := dataUrl;
      var payload := ImageInput.StripHeader(dataUrl);
      effects := [Display(dataUrl), CallSetImage(payload)];
      cache := map[];
      var reapplied := RequestFilter(cvd, code);
      effects := effects + reapplied;
    }
  }

  // ---------------------------------------------------------------------------
  // One input at a time
  // ---------------------------------------------------------------------------

  /** With no deficiency selected nothing changes and the worker is not called;
      the current image is shown if there is one. */
  lemma RequestNoneIsInert(st: State, code: string)
    ensures Request(st, "none", code).next == st
    ensures Request(st, "none", code).effects == if st.currentImage != "" then [Display(st.currentImage)] else []
  {
  }

  /** A cache hit shows the cached image, calls nothing, keeps the cache and
      sets the counter to max(0, n - 1). */
  lemma RequestHit(st: State, cvd: string, code: string)
    requires cvd != "none" && code in st.cache
    ensures Request(st, cvd, code).effects == [Display(st.cache[code])]
    ensures Request(st, cvd, code).next.cache == st.cache
    ensures Request(st, cvd, code).next.inFlight == if st.inFlight >= 1 then st.inFlight - 1 else 0
  {
  }

  /** A cache miss issues exactly one `applyFilter` with the code, raises the
      counter by one and leaves the cache alone. */
  lemma RequestMiss(st: State, cvd: string, code: string)
    requires cvd != "none" && code !in st.cache
    ensures Request(st, cvd, code).effects == [CallApplyFilter(code)]
    ensures Request(st, cvd, code).next == st.(inFlight := st.inFlight + 1)
  {
  }

  /** A non-empty result is stored under its code, every other entry is kept,
      the result is shown and the counter becomes max(0, n - 1). */
  lemma TerminalStores(st: State, code: string, url: string)
    requires url != ""
    ensures Terminal(st, code, Some(url)).next.cache.Keys == st.cache.Keys + {code}
    ensures Terminal(st, code, Some(url)).next.cache[code] == url
    ensures forall other :: other in st.cache && other != code ==> Terminal(st, code, Some(url)).next.cache[other] == st.cache[other]
    ensures Terminal(st, code, Some(url)).next.inFlight == if st.inFlight >= 1 then st.inFlight - 1 else 0
    ensures Terminal(st, code, Some(url)).effects == [Display(url)]
  {
  }

  /** A `null` (or empty) result changes nothing: the counter is not released. */
  lemma TerminalIgnoresFailure(st: State, code: string, result: Option<string>)
    requires result == None || result == Some("")
    ensures Terminal(st, code, result) == Outcome(st, [])
  {
  }

  /** Submission sends the text after the first comma, empties the cache, and
      the immediate re-application is a miss unless no deficiency is selected. */
  lemma SubmitEmptiesCache(st: State, dataUrl: string, cvd: string, code: string)
    ensures Submit(st, dataUrl, cvd, code).next.cache == map[]
    ensures Submit(st, dataUrl, cvd, code).next.currentImage == dataUrl
    ensures Submit(st, dataUrl, cvd, code).effects[..2] == [Display(dataUrl), CallSetImage(ImageInput.StripHeader(dataUrl))]
    ensures cvd == "none" ==> Submit(st, dataUrl, cvd, code).effects[2..] == (if dataUrl != "" then [Display(dataUrl)] else [])
    ensures cvd == "none" ==> Submit(st, dataUrl, cvd, code).next.inFlight == st.inFlight
    ensures cvd != "none" ==> Submit(st, dataUrl, cvd, code).effects[2..] == [CallApplyFilter(code)]
    ensures cvd != "none" ==> Submit(st, dataUrl, cvd, code).next.inFlight == st.inFlight + 1
  {
  }

  // ---------------------------------------------------------------------------
  // Any sequence of inputs, in any order
  // ---------------------------------------------------------------------------

  datatype Input =
    | Select(cvd: string, code: string)
    | Complete(code: string, result: Option<string>)
    | Load(dataUrl: string, cvd: string, code: string)

  function Step(st: State, input: Input): Outcome
  {
    match input
    case Select(cvd, code) => Request(st, cvd, code)
    case Complete(code, result) => Terminal(st, code, result)
    case Load(dataUrl, cvd, code) => Submit(st, dataUrl, cvd, code)
  }

  /** The inputs applied one after the other; the effects are concatenated. */
  function Replay(st: State, inputs: seq<Input>): Outcome
    decreases |inputs|
  {
    if |inputs| == 0 then Outcome(st, [])
    else
      var first := Step(st, inputs[0]);
      var rest := Replay(first.next, inputs[1..]);
      Outcome(rest.next, first.effects + rest.effects)
  }

  /** Replaying a non-empty sequence: the first input, then the others. */
  lemma ReplayCons(st: State, input: Input, rest: seq<Input>)
    ensures Replay(st, [input] + rest)
            == Outcome(Replay(Step(st, input).next, rest).next,
                       Step(st, input).effects + Replay(Step(st, input).next, rest).effects)
  {
    assert ([input] + rest)[0] == input;
    assert ([input] + rest)[1..] == rest;
  }

  /** The number of `applyFilter` calls among some effects. */
  function FilterCalls(effects: seq<Effect>): nat
  {
    if |effects| == 0 then 0
    else (if effects[0].CallApplyFilter? then 1 else 0) + FilterCalls(effects[1..])
  }

  lemma {:induction false} FilterCallsAppend(a: seq<Effect>, b: seq<Effect>)
    ensures FilterCalls(a + b) == FilterCalls(a) + FilterCalls(b)
  {
    if |a| > 0 {
      assert (a + b)[1..] == a[1..] + b;
      FilterCallsAppend(a[1..], b);
    } else {
      assert a + b == b;
    }
  }

  lemma StepKeepsInv(st: State, input: Input)
    requires Inv(st)
    ensures Inv(Step(st, input).next)
  {
  }

  /** Whatever the order of requests, replies and submissions, the counter is
      never negative and no empty result is ever cached. */
  lemma {:induction false} ReplayKeepsInv(st: State, inputs: seq<Input>)
    requires Inv(st)
    ensures Inv(Replay(st, inputs).next)
    decreases |inputs|
  {
    if |inputs| > 0 {
      StepKeepsInv(st, inputs[0]);
      ReplayKeepsInv(Step(st, inputs[0]).next, inputs[1..]);
    }
  }

  /** One input raises the counter by at most the number of filters it sends. */
  lemma StepCounterBound(st: State, input: Input)
    requires Inv(st)
    ensures Step(st, input).next.inFlight <= st.inFlight + FilterCalls(Step(st, input).effects)
  {
    match input
    case Load(dataUrl, cvd, code) =>
      var r := Request(State(map[], st.inFlight, dataUrl), cvd, code);
      FilterCallsAppend([Display(dataUrl), CallSetImage(ImageInput.StripHeader(dataUrl))], r.effects);
    case _ =>
  }

  /** The counter never exceeds its start plus the `applyFilter` calls issued. */
  lemma {:induction false} CounterBoundedByCalls(st: State, inputs: seq<Input>)
    requires Inv(st)
    ensures Replay(st, inputs).next.inFlight <= st.inFlight + FilterCalls(Replay(st, inputs).effects)
    decreases |inputs|
  {
    if |inputs| > 0 {
      var first := Step(st, inputs[0]);
      StepCounterBound(st, inputs[0]);
      StepKeepsInv(st, inputs[0]);
      CounterBoundedByCalls(first.next, inputs[1..]);
      FilterCallsAppend(first.effects, Replay(first.next, inputs[1..]).effects);
    }
  }

  // ---------------------------------------------------------------------------
  // Scenarios
  // ---------------------------------------------------------------------------

  /** Request, reply, request again: the second request is served from the
      cache without calling the worker. */
  lemma RepeatRequestServedFromCache(st: State, cvd: string, code: string, url: string)
    requires cvd != "none" && code !in st.cache && url != ""
    ensures Replay(st, [Select(cvd, code), Complete(code, Some(url)), Select(cvd, code)]).effects
            == [CallApplyFilter(code), Display(url), Display(url)]
  {
    var s1 := Request(st, cvd, code).next;
    var s2 := Terminal(s1, code, Some(url)).next;
    ReplayCons(s2, Select(cvd, code), []);
    ReplayCons(s1, Complete(code, Some(url)), [Select(cvd, code)]);
    ReplayCons(st, Select(cvd, code), [Complete(code, Some(url)), Select(cvd, code)]);
  }

  /** Two requests for the same code before any reply both call the worker. */
  lemma OverlappingRequestsBothCall(st: State, cvd: string, code: string)
    requires cvd != "none" && code !in st.cache
    ensures Replay(st, [Select(cvd, code), Select(cvd, code)]).effects == [CallApplyFilter(code), CallApplyFilter(code)]
    ensures Replay(st, [Select(cvd, code), Select(cvd, code)]).next.inFlight == st.inFlight + 2
  {
    var s1 := Request(st, cvd, code).next;
    ReplayCons(s1, Select(cvd, code), []);
    ReplayCons(st, Select(cvd, code), [Select(cvd, code)]);
  }

  /** A failed filter never releases the counter, so press-and-hold stays disabled. */
  lemma FailedFilterKeepsBusy(st: State, cvd: string, code: string)
    requires Inv(st) && cvd != "none" && code !in st.cache
    ensures Replay(st, [Select(cvd, code), Complete(code, None)]).next.inFlight == st.inFlight + 1
    ensures !HoldAllowed(Replay(st, [Select(cvd, code), Complete(code, None)]).next)
  {
    var s1 := Request(st, cvd, code).next;
    ReplayCons(s1, Complete(code, None), []);
    ReplayCons(st, Select(cvd, code), [Complete(code, None)]);
  }

  /** The guard is not stuck after a failure: a later cache hit decrements the
      counter that the failed filter left raised, and press-and-hold works again. */
  lemma LaterHitReleasesGuard(st: State, cvd: string, hit: string, failed: string)
    requires Inv(st) && st.inFlight == 0 && cvd != "none" && hit in st.cache && failed !in st.cache
    ensures !HoldAllowed(Replay(st, [Select(cvd, failed), Complete(failed, None)]).next)
    ensures HoldAllowed(Replay(st, [Select(cvd, failed), Complete(failed, None), Select(cvd, hit)]).next)
  {
    var s1 := Request(st, cvd, failed).next;
    ReplayCons(s1, Complete(failed, None), []);
    ReplayCons(st, Select(cvd, failed), [Complete(failed, None)]);
    ReplayCons(s1, Select(cvd, hit), []);
    ReplayCons(s1, Complete(failed, None), [Select(cvd, hit)]);
    ReplayCons(st, Select(cvd, failed), [Complete(failed, None), Select(cvd, hit)]);
  }

  /** There is no generation tag. Request a filter, submit a new image (its
      re-application calls the worker again), then let the reply computed for
      the previous image arrive: that stale result is cached for the new image
      and shown, and a later request for the same code is served it without
      calling the worker. */
  lemma StaleReplyAfterSubmit(st: State, cvd: string, code: string, dataUrl: string, stale: string)
    requires cvd != "none" && code !in st.cache && stale != ""
    ensures var o1 := Request(st, cvd, code);
            var o2 := Submit(o1.next, dataUrl, cvd, code);
            var o3 := Terminal(o2.next, code, Some(stale));
            var o4 := Request(o3.next, cvd, code);
            && o1.effects == [CallApplyFilter(code)]
            && o2.effects[2..] == [CallApplyFilter(code)]
            && o3.next.cache == map[code := stale] && o3.next.currentImage == dataUrl
            && o3.effects == [Display(stale)]
            && o4.effects == [Display(stale)]
  {
  }
}
