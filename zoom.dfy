/** Zoom-to-extent: a handler registered with `source.once('change', ...)`.
    It runs on the first change event of the source and never again, and it
    fits the view only if, at that moment, the source is ready and has at
    least one feature. */
module ZoomToExtent {

  /** `NotRequested`: no handler was registered; `Waiting`: the handler is
      registered and has not run; `Spent`: it has run and is unsubscribed. */
  datatype ZoomWatch = NotRequested | Waiting | Spent

  /** What the handler sees when a change event fires. */
  datatype SourceChange = SourceChange(state: string, features: nat)

  /** One change event: the new watch state and whether the view is fitted. */
  function OnChange(w: ZoomWatch, c: SourceChange): (r: (ZoomWatch, bool))
    ensures r.1 <==> w == Waiting && c.state == "ready" && c.features > 0
    ensures w == Waiting ==> r.0 == Spent
    ensures w != Waiting ==> r.0 == w
  {
    if w == Waiting then (Spent, c.state == "ready" && c.features > 0) else (w, false)
  }

  /** How many times the view is fitted over a run of change events. */
  function Fits(w: ZoomWatch, changes: seq<SourceChange>): nat
    decreases |changes|
  {
    if changes == [] then 0
    else
      var (w', fit) := OnChange(w, changes[0]);
      (if fit then 1 else 0) + Fits(w', changes[1..])
  }

  /** A handler that is not waiting never fits the view again. */
  lemma {:induction false} IdleNeverFits(w: ZoomWatch, changes: seq<SourceChange>)
    requires w != Waiting
    ensures Fits(w, changes) == 0
    decreases |changes|
  {
    if changes != [] {
      IdleNeverFits(w, changes[1..]);
    }
  }

  /** Over any run of change events, the view is fitted at most once, and
      exactly when the FIRST event finds the source ready with features. */
  lemma FitsOnlyOnFirstChange(changes: seq<SourceChange>)
    ensures Fits(Waiting, changes) ==
            if |changes| > 0 && changes[0].state == "ready" && changes[0].features > 0 then 1 else 0
  {
    if changes != [] {
      IdleNeverFits(Spent, changes[1..]);
    }
  }

  /** A source that first reports ready with no features and later with three
      is never fitted: only the first change event is looked at. */
  lemma LateFeaturesNeverFit()
    ensures Fits(Waiting, [SourceChange("ready", 0), SourceChange("ready", 3)]) == 0
  {
    FitsOnlyOnFirstChange([SourceChange("ready", 0), SourceChange("ready", 3)]);
  }
}
