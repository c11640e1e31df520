/**
 * The worker side (assets/js/simulator-worker.js): `PythonSimulator` runs its
 * operations as fixed sequences of awaited Pyodide calls, announcing each with
 * a progress event, and turns any exception into one terminal error event.
 * Every Pyodide call is an opaque step that completes or throws.
 */
module Worker {
  import opened Wrappers
  import opened Progress

  /** An awaited Pyodide call whose value is not used. */
  datatype Step = Succeeds | Throws

  /** An awaited `runPython` whose value is used (`None` for `undefined`), or that throws. */
  datatype ValueStep = Yields(value: Option<string>) | Raises

  /** The settled state of the field `initCompletedPromise`. */
  datatype InitPromise = Absent | Resolved | Rejected

  /** The outcomes of the five awaited steps of `doInit`: `loadPyodide`,
      `loadPackage("micropip")`, installing the DaltonLens wheel,
      `loadPackage("Pillow")` and defining the helper functions. */
  datatype InitEnv = InitEnv(loadPyodide: Step, loadMicropip: Step, installDaltonLens: Step,
                             loadPillow: Step, defineHelpers: Step)

  function Steps(env: InitEnv): seq<Step>
  {
    [env.loadPyodide, env.loadMicropip, env.installDaltonLens, env.loadPillow, env.defineHelpers]
  }

  /** The event announced before each step of `doInit`. */
  const InitStages: seq<Event> :=
    [Event("Pyodide", 5, None), Event("micropip", 50, None), Event("DaltonLens", 60, None),
     Event("Pillow", 80, None), Event("Common functions", 90, None)]

  const InitDone := Event("done", 100, Some("Empty Result"))
  const InitFailed := Event("ERROR: Python init failed :-(", 100, None)
  const FilterFailed := Event("ERROR: Python applyFilter failed :-(", 100, None)
  const SetImageFailed := Event("ERROR: Python setImage failed :-(", 100, None)

  /** The position of the first step that throws, or the number of steps. */
  function FirstThrow(steps: seq<Step>): (k: nat)
    ensures k <= |steps|
    ensures forall i :: 0 <= i < k ==> steps[i] == Succeeds
    ensures k < |steps| ==> steps[k] == Throws
  {
    if |steps| == 0 || steps[0] == Throws then 0
    else
      var k := FirstThrow(steps[1..]);
      assert forall i :: 1 <= i <= k ==> steps[i] == steps[1..][i - 1] == Succeeds;
      assert steps[0] == Succeeds;
      1 + k
  }

  /** Where `doInit` stops, step by step. */
  lemma FirstThrowOfSteps(env: InitEnv)
    ensures FirstThrow(Steps(env)) ==
            if env.loadPyodide == Throws then 0
            else if env.loadMicropip == Throws then 1
            else if env.installDaltonLens == Throws then 2
            else if env.loadPillow == Throws then 3
            else if env.defineHelpers == Throws then 4
            else 5
  {
    var k := FirstThrow(Steps(env));
    assert k <= 5;
  }

  /** The events of `init`: the stages announced up to the first step that
      throws, then one error; or all stages and `done`. */
  function InitTrace(env: InitEnv): seq<Event>
  {
    var k := FirstThrow(Steps(env));
    if k == |InitStages| then InitStages + [InitDone] else InitStages[..k + 1] + [InitFailed]
  }

  /** The events of `applyFilter` from the state of the bootstrap. */
  function ApplyFilterTrace(promise: InitPromise, loaded: bool, run: Step, transfer: ValueStep): seq<Event>
  {
    if promise == Rejected then [FilterFailed]
    else
      [Event("applying filter", 30, None)] +
      if !loaded || run == Throws then [FilterFailed]
      else
        [Event("transfer", 80, None)] +
        match transfer
        case Raises => [FilterFailed]
        case Yields(url) => [Event("done", 100, url)]
  }

  /** The events of `setImage` from the state of the bootstrap. */
  function SetImageTrace(promise: InitPromise, loaded: bool, load: ValueStep): seq<Event>
  {
    if promise == Rejected then [SetImageFailed]
    else
      [Event("load image", 50, None)] +
      if !loaded then [SetImageFailed]
      else
        match load
        case Raises => [SetImageFailed]
        case Yields(v) => [Event("done", 100, v)]
  }

  class PythonSimulator {
    /** Whether `this.pyodide` holds a runtime. */
    var pyodideLoaded: bool
    var initCompleted: InitPromise
    /** The worker global `self.input_image_url`. */
    var inputImageUrl: Option<string>

    /** A resolved bootstrap has loaded Pyodide; none has run before `init`. */
    ghost predicate Valid()
      reads this
    {
      (initCompleted == Resolved ==> pyodideLoaded) && (initCompleted == Absent ==> !pyodideLoaded)
    }

    constructor ()
      ensures Valid()
      ensures !pyodideLoaded && initCompleted == Absent && inputImageUrl == None
    {
      pyodideLoaded := false;
      initCompleted := Absent;
      inputImageUrl := None;
    }

    /** `doInit`: its events, and whether it completes (its promise resolves). */
    method DoInit(env: InitEnv) returns (events: seq<Event>, completed: bool)
      modifies this`pyodideLoaded
      ensures completed <==> FirstThrow(Steps(env)) == |InitStages|
      ensures events == if completed then InitStages + [InitDone] else InitStages[..FirstThrow(Steps(env)) + 1]
      ensures pyodideLoaded == (old(pyodideLoaded) || env.loadPyodide == Succeeds)
    {
      FirstThrowOfSteps(env);
      completed := false;
      events := [Event("Pyodide", 5, None)];
      if env.loadPyodide == Throws { return; }
      pyodideLoaded := true;

      events := events + [Event("micropip", 50, None)];
      if env.loadMicropip == Throws { return; }

      events := events + [Event("DaltonLens", 60, None)];
      if env.installDaltonLens == Throws { return; }

      events := events + [Event("Pillow", 80, None)];
      if env.loadPillow == Throws { return; }

      events := events + [Event("Common functions", 90, None)];
      if env.defineHelpers == Throws { return; }

      events := events + [InitDone];
      completed := true;
    }

    /** `init`: replaces the bootstrap promise on every call and reports a
        failure as one error event instead of throwing. */
    method Init(env: InitEnv) returns (events: seq<Event>)
      modifies this
      ensures Valid()
      ensures events == InitTrace(env)
      ensures initCompleted == if FirstThrow(Steps(env)) == |InitStages| then Resolved else Rejected
      ensures pyodideLoaded == (old(pyodideLoaded) || env.loadPyodide == Succeeds)
      ensures inputImageUrl == old(inputImageUrl)
    {
      var completed;
      events, completed := DoInit(env);
      initCompleted := if completed then Resolved else Rejected;
      if !completed {
        events := events + [InitFailed];
      }
    }

    /** `applyFilter`: `run` is running the filter code, `transfer` is encoding the result. */
    method ApplyFilter(code: string, run: Step, transfer: ValueStep) returns (events: seq<Event>)
      requires Valid()
      ensures events == ApplyFilterTrace(initCompleted, pyodideLoaded, run, transfer)
    {
      if initCompleted == Rejected {
        events := [FilterFailed];
        return;
      }
      events := [Event("applying filter", 30, None)];
      // Before any `init`, `this.pyodide` is undefined and calling it throws.
      if !pyodideLoaded || run == Throws {
        events := events + [FilterFailed];
        return;
      }
      events := events + [Event("transfer", 80, None)];
      match transfer {
        case Raises =>
          events := events + [FilterFailed];
        case Yields(url) =>
          events := events + [Event("done", 100, url)];
      }
    }

    /** `setImage`: `load` is decoding the image inside Python. */
    method SetImage(url: string, load: ValueStep) returns (events: seq<Event>)
      requires Valid()
      modifies this`inputImageUrl
      ensures Valid()
      ensures inputImageUrl == if initCompleted == Rejected then old(inputImageUrl) else Some(url)
      ensures events == SetImageTrace(initCompleted, pyodideLoaded, load)
    {
      if initCompleted == Rejected {
        events := [SetImageFailed];
        return;
      }
      inputImageUrl := Some(url);
      events := [Event("load image", 50, None)];
      if !pyodideLoaded {
        events := events + [SetImageFailed];
        return;
      }
      match load {
        case Raises =>
          events := events + [SetImageFailed];
        case Yields(v) =>
          events := events + [Event("done", 100, v)];
      }
    }
  }

  // ---------------------------------------------------------------------------
  // Properties of the traces
  // ---------------------------------------------------------------------------

  function Percents(es: seq<Event>): (ps: seq<int>)
    ensures |ps| == |es| && forall i :: 0 <= i < |es| ==> ps[i] == es[i].percent
  {
    if |es| == 0 then [] else [es[0].percent] + Percents(es[1..])
  }

  /** A successful `init` reports 5, 50, 60, 80, 90 and then `done` at 100. */
  lemma InitSuccessTrace(env: InitEnv)
    requires forall i :: 0 <= i < 5 ==> Steps(env)[i] == Succeeds
    ensures Percents(InitTrace(env)) == [5, 50, 60, 80, 90, 100]
    ensures InitTrace(env)[5] == Event("done", 100, Some("Empty Result"))
  {
    assert FirstThrow(Steps(env)) == 5;
  }

  /** `init` never throws: a failing step is followed by exactly one error event,
      after the events of a successful run up to that step. */
  lemma InitFailureTrace(env: InitEnv)
    requires exists i :: 0 <= i < 5 && Steps(env)[i] == Throws
    ensures var t := InitTrace(env);
            && t[|t| - 1] == Event("ERROR: Python init failed :-(", 100, None)
            && t[..|t| - 1] <= InitStages
            && |t| - 1 == FirstThrow(Steps(env)) + 1
  {
    var k := FirstThrow(Steps(env));
    assert k < 5;
    var t := InitTrace(env);
    assert t[..|t| - 1] == InitStages[..k + 1];
  }

  /** The events of `init` form a well-formed run. */
  lemma InitTraceIsRun(env: InitEnv)
    ensures IsRun(InitTrace(env))
  {
    var k := FirstThrow(Steps(env));
    var t := InitTrace(env);
    assert forall i :: 0 <= i < |t| - 1 ==> t[i] == InitStages[i];
  }

  /** The events of `applyFilter` form a well-formed run. */
  lemma ApplyFilterTraceIsRun(promise: InitPromise, loaded: bool, run: Step, transfer: ValueStep)
    ensures IsRun(ApplyFilterTrace(promise, loaded, run, transfer))
  {
  }

  /** The events of `setImage` form a well-formed run. */
  lemma SetImageTraceIsRun(promise: InitPromise, loaded: bool, load: ValueStep)
    ensures IsRun(SetImageTrace(promise, loaded, load))
  {
  }

  /** `applyFilter` ends in `done` with the encoded image exactly when the
      bootstrap did not fail and both Python steps succeed; otherwise it ends
      in its single error event. A failed bootstrap yields that event alone. */
  lemma ApplyFilterOutcome(promise: InitPromise, loaded: bool, run: Step, transfer: ValueStep)
    ensures var t := ApplyFilterTrace(promise, loaded, run, transfer);
            if promise != Rejected && loaded && run == Succeeds && transfer.Yields? then
              t == [Event("applying filter", 30, None), Event("transfer", 80, None), Event("done", 100, transfer.value)]
            else
              t[|t| - 1] == Event("ERROR: Python applyFilter failed :-(", 100, None)
    ensures promise == Rejected ==> ApplyFilterTrace(promise, loaded, run, transfer) == [FilterFailed]
  {
  }

  /** `setImage` reports `load image` at 50 unless the bootstrap failed, then
      `done` with the step's value or its single error event. */
  lemma SetImageOutcome(promise: InitPromise, loaded: bool, load: ValueStep)
    ensures var t := SetImageTrace(promise, loaded, load);
            if promise != Rejected && loaded && load.Yields? then
              t == [Event("load image", 50, None), Event("done", 100, load.value)]
            else
              t[|t| - 1] == Event("ERROR: Python setImage failed :-(", 100, None)
  {
  }

  /** Through `cbWithProgress`, the page's completion handler for a filter runs
      exactly once, with the encoded image on success and `null` otherwise. */
  lemma FilterCompletesOnce(promise: InitPromise, loaded: bool, run: Step, transfer: ValueStep)
    ensures DoneResults(HandleAll(ApplyFilterTrace(promise, loaded, run, transfer)))
            == [if promise != Rejected && loaded && run == Succeeds && transfer.Yields? then transfer.value else None]
  {
    ApplyFilterTraceIsRun(promise, loaded, run, transfer);
    RunCallsDoneOnce(ApplyFilterTrace(promise, loaded, run, transfer));
  }

  /** The same holds for `init` and `setImage`. */
  lemma InitAndSetImageCompleteOnce(env: InitEnv, promise: InitPromise, loaded: bool, load: ValueStep)
    ensures |DoneResults(HandleAll(InitTrace(env)))| == 1
    ensures |DoneResults(HandleAll(SetImageTrace(promise, loaded, load)))| == 1
  {
    InitTraceIsRun(env);
    RunCallsDoneOnce(InitTrace(env));
    SetImageTraceIsRun(promise, loaded, load);
    RunCallsDoneOnce(SetImageTrace(promise, loaded, load));
  }
}
