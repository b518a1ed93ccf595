/** `onFirstAppear` and `onFirstTask`: run an action the first time a view
    appears, using a `didAppear` flag that lives as long as the view.

    `onFirstTask(_:)` installs `OnFirstAppearViewModifier` too, so both
    extensions behave as `Run` describes. `OnFirstTaskViewModifier` guards
    its action with the same flag; it differs only in being driven by `task`
    instead of `onAppear`, and nothing installs it. */
module FirstAppear {

  /** What the view goes through. Only appearing matters to the latch. */
  datatype LifecycleEvent = Appear | Disappear

  /** The modifier's state: has the view appeared before? */
  datatype Latch = Latch(didAppear: bool)

  /** A fresh view has not appeared. */
  const Initial: Latch := Latch(false)

  /** The `onAppear` handler: returns the new state and whether the action ran. */
  function OnAppear(l: Latch): (r: (Latch, bool))
    ensures r.0.didAppear
    ensures r.1 <==> !l.didAppear
  {
    if l.didAppear then (l, false) else (Latch(true), true)
  }

  function Step(l: Latch, e: LifecycleEvent): (Latch, bool) {
    match e
    case Appear => OnAppear(l)
    case Disappear => (l, false)
  }

  /** The state after a run of events and how many times the action ran. */
  function Run(l: Latch, events: seq<LifecycleEvent>): (r: (Latch, nat))
    ensures r.0.didAppear <==> l.didAppear || Appear in events
    ensures r.1 == (if !l.didAppear && Appear in events then 1 else 0)
    decreases |events|
  {
    if |events| == 0 then (l, 0)
    else
      var (l1, ran) := Step(l, events[0]);
      var (l2, n) := Run(l1, events[1..]);
      assert events == [events[0]] + events[1..];
      (l2, n + (if ran then 1 else 0))
  }

  /** However often a fresh view appears and disappears, the action runs
      exactly once if it appears at all. */
  lemma ActionRunsAtMostOnce(events: seq<LifecycleEvent>)
    ensures Run(Initial, events).1 <= 1
    ensures Run(Initial, events).1 == 1 <==> Appear in events
  {
  }
}
