/**
 * The progress protocol between the page and the worker: every operation of
 * the worker reports `(label, percent, result?)` events, and the page wraps
 * its completion handler with `cbWithProgress` (assets/js/simulator.js).
 */
module Progress {
  import opened Wrappers

  /** One call of the progress callback. An omitted `result` is `null`, so it is `None`. */
  datatype Event = Event(text: string, percent: int, result: Option<string>)

  /** What the page does on behalf of one event: update the progress bar, then maybe call the done-callback. */
  datatype Callback = ShowProgress(text: string, percent: int) | WhenDone(result: Option<string>)

  /** A well-formed run of one operation: percents in [0, 100], non-decreasing,
      and exactly one event at 100, which is the last. */
  predicate IsRun(es: seq<Event>)
  {
    && |es| >= 1
    && es[|es| - 1].percent == 100
    && (forall i :: 0 <= i < |es| - 1 ==> 0 <= es[i].percent < 100)
    && (forall i, j :: 0 <= i <= j < |es| ==> es[i].percent <= es[j].percent)
  }

  /** The callbacks that the wrapper built by `cbWithProgress` makes for one event. */
  function Handle(e: Event): seq<Callback>
  {
    [ShowProgress(e.text, e.percent)] + (if e.percent == 100 then [WhenDone(e.result)] else [])
  }

  /** The callbacks made for a whole sequence of events, in order. */
  function HandleAll(es: seq<Event>): seq<Callback>
  {
    if |es| == 0 then [] else Handle(es[0]) + HandleAll(es[1..])
  }

  /** The progress-bar updates among some callbacks. */
  function Shown(cs: seq<Callback>): seq<(string, int)>
  {
    if |cs| == 0 then []
    else (match cs[0]
          case ShowProgress(t, p) => [(t, p)]
          case WhenDone(_) => []) + Shown(cs[1..])
  }

  /** The arguments with which the done-callback is invoked among some callbacks. */
  function DoneResults(cs: seq<Callback>): seq<Option<string>>
  {
    if |cs| == 0 then []
    else (match cs[0]
          case ShowProgress(_, _) => []
          case WhenDone(r) => [r]) + DoneResults(cs[1..])
  }

  lemma {:induction false} ShownAppend(a: seq<Callback>, b: seq<Callback>)
    ensures Shown(a + b) == Shown(a) + Shown(b)
  {
    if |a| > 0 {
      assert (a + b)[1..] == a[1..] + b;
      ShownAppend(a[1..], b);
    } else {
      assert a + b == b;
    }
  }

  lemma {:induction false} DoneResultsAppend(a: seq<Callback>, b: seq<Callback>)
    ensures DoneResults(a + b) == DoneResults(a) + DoneResults(b)
  {
    if |a| > 0 {
      assert (a + b)[1..] == a[1..] + b;
      DoneResultsAppend(a[1..], b);
    } else {
      assert a + b == b;
    }
  }

  /** Every event reaches the progress display, in order, with its text and percent. */
  lemma {:induction false} EveryEventIsShown(es: seq<Event>)
    ensures Shown(HandleAll(es)) == seq(|es|, i requires 0 <= i < |es| => (es[i].text, es[i].percent))
  {
    if |es| > 0 {
      var h := Handle(es[0]);
      ShownAppend(h, HandleAll(es[1..]));
      EveryEventIsShown(es[1..]);
      if es[0].percent == 100 {
        ShownAppend([ShowProgress(es[0].text, es[0].percent)], [WhenDone(es[0].result)]);
      }
    }
  }

  /** The done-callback is invoked once per event at 100, with that event's result. */
  lemma {:induction false} DoneResultsOfEvents(es: seq<Event>)
    ensures DoneResults(HandleAll(es)) == TerminalResults(es)
  {
    if |es| > 0 {
      var h := Handle(es[0]);
      DoneResultsAppend(h, HandleAll(es[1..]));
      DoneResultsOfEvents(es[1..]);
      if es[0].percent == 100 {
        DoneResultsAppend([ShowProgress(es[0].text, es[0].percent)], [WhenDone(es[0].result)]);
      }
    }
  }

  /** The results carried by the events at 100, in order. */
  function TerminalResults(es: seq<Event>): seq<Option<string>>
  {
    if |es| == 0 then []
    else (if es[0].percent == 100 then [es[0].result] else []) + TerminalResults(es[1..])
  }

  /** On a well-formed run the done-callback fires exactly once, after the last
      event, with that event's result. */
  lemma {:induction false} RunCallsDoneOnce(es: seq<Event>)
    requires IsRun(es)
    ensures DoneResults(HandleAll(es)) == [es[|es| - 1].result]
  {
    DoneResultsOfEvents(es);
    NoTerminalBeforeLast(es, 0);
  }

  lemma {:induction false} NoTerminalBeforeLast(es: seq<Event>, k: nat)
    requires IsRun(es) && k < |es|
    ensures TerminalResults(es[k..]) == [es[|es| - 1].result]
    decreases |es| - k
  {
    if k == |es| - 1 {
      assert es[k..][1..] == [];
    } else {
      assert es[k..][1..] == es[k + 1..];
      NoTerminalBeforeLast(es, k + 1);
    }
  }
}
