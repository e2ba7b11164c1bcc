/** The drag-to-dismiss rule of the iOS viewer (`handlePanGesture`). Each
    pan callback moves the content, fades the backdrop and hides the
    navigation bar while the finger moves, and at the end of the gesture
    either sends the content off screen (dismissal) or puts everything back.
    Animations are modelled by the values they animate to. */
module PanGesture {

  /** The states a pan gesture recogniser reports. */
  datatype GestureState = Possible | Began | Changed | Ended | Cancelled | Failed

  /** One pan callback: the recogniser's state, the vertical translation and
      velocity it reports, and the height of the view's bounds. */
  datatype PanEvent = PanEvent(state: GestureState, translationY: real, velocityY: real, height: real)

  /** What the pan handler writes: the vertical offset of the content view's
      transform, the backdrop's alpha, the vertical offset and alpha of the
      navigation bar, and whether a dismissal has been started. */
  datatype PanState = PanState(
    contentTy: real,
    backdropAlpha: real,
    navTy: real,
    navAlpha: real,
    dismissed: bool)

  /** Identity transforms and opaque views, before any gesture. */
  const InitialPan: PanState := PanState(0.0, 1.0, 0.0, 1.0, false)

  /** A swipe faster than this (points per second) dismisses. */
  const DismissVelocity: real := 500.0
  /** A drag over more than this fraction of the height dismisses. */
  const DismissProgress: real := 0.5
  /** How far the navigation bar slides down while a drag is under way. */
  const NavBarDragOffset: real := 50.0

  function Abs(x: real): (r: real)
    ensures r >= 0.0 && (r == x || r == -x)
  {
    if x < 0.0 then -x else x
  }

  /** Multiplying by a positive height keeps a strict comparison. */
  lemma ScaleByHeight(p: real, k: real, height: real)
    requires height > 0.0
    ensures p > k <==> p * height > k * height
  {
    if p > k {
      assert (p - k) * height > 0.0;
    } else {
      assert (k - p) * height >= 0.0;
    }
  }

  /** The fraction of the view height the finger has travelled. The source
      divides without a guard, so a positive height is required. */
  function Progress(translationY: real, height: real): (p: real)
    requires height > 0.0
    ensures p >= 0.0 && p * height == Abs(translationY)
  {
    Abs(translationY) / height
  }

  /** The dismissal decision, stated without a division: a swipe strictly
      faster than 500, or a drag strictly longer than half the height. */
  function IsDismissing(translationY: real, velocityY: real, height: real): (d: bool)
    requires height > 0.0
    ensures d <==> Abs(velocityY) > DismissVelocity || 2.0 * Abs(translationY) > height
  {
    var p := Progress(translationY, height);
    ScaleByHeight(p, DismissProgress, height);
    Abs(velocityY) > DismissVelocity || p > DismissProgress
  }

  /** Where a dismissed content view is sent: a full height down when the
      transform applied so far moved it down, a full height up otherwise,
      including when it was not moved at all. */
  function DismissTarget(previousTy: real, height: real): (y: real)
    requires height > 0.0
    ensures Abs(y) == height
    ensures y > 0.0 <==> previousTy > 0.0
  {
    if previousTy > 0.0 then height else -height
  }

  /** The backdrop alpha during a drag, which the source does not clamp: it
      never exceeds 1 and is negative exactly when the drag is longer than the
      view is high. */
  function DragAlpha(translationY: real, height: real): (a: real)
    requires height > 0.0
    ensures a <= 1.0
    ensures a < 0.0 <==> Abs(translationY) > height
    ensures a == 1.0 <==> translationY == 0.0
  {
    var p := Progress(translationY, height);
    ScaleByHeight(p, 1.0, height);
    assert p * height == Abs(translationY) && 1.0 * height == height;
    assert p > 1.0 <==> Abs(translationY) > height;
    1.0 - p
  }

  /** One pan callback. */
  function PanStep(s: PanState, e: PanEvent): (r: PanState)
    requires e.height > 0.0
    // while the finger moves: content follows it, backdrop fades, navigation bar hides
    ensures e.state == Changed ==>
              r == s.(contentTy := e.translationY,
                      backdropAlpha := DragAlpha(e.translationY, e.height),
                      navTy := NavBarDragOffset, navAlpha := 0.0)
    // at the end or on cancellation: dismiss, off screen in the direction already shown
    ensures (e.state == Ended || e.state == Cancelled) && IsDismissing(e.translationY, e.velocityY, e.height) ==>
              r == s.(contentTy := DismissTarget(s.contentTy, e.height), backdropAlpha := 0.0, dismissed := true)
    // ... or put everything back
    ensures (e.state == Ended || e.state == Cancelled) && !IsDismissing(e.translationY, e.velocityY, e.height) ==>
              r == PanState(0.0, 1.0, 0.0, 1.0, s.dismissed)
    // every other state is ignored
    ensures e.state !in {Changed, Ended, Cancelled} ==> r == s
    // only an end or a cancellation starts a dismissal, and nothing undoes one
    ensures r.dismissed <==> s.dismissed || (e.state in {Ended, Cancelled} && IsDismissing(e.translationY, e.velocityY, e.height))
  {
    match e.state
    case Changed =>
      s.(contentTy := e.translationY,
         backdropAlpha := 1.0 - Progress(e.translationY, e.height),
         navTy := NavBarDragOffset, navAlpha := 0.0)
    case Ended | Cancelled =>
      var velocity := e.velocityY;
      var isFastSwipe := Abs(velocity) > DismissVelocity;
      var isSignificantDrag := Progress(e.translationY, e.height) > DismissProgress;
      if isFastSwipe || isSignificantDrag then
        s.(contentTy := if s.contentTy > 0.0 then e.height else -e.height,
           backdropAlpha := 0.0, dismissed := true)
      else
        s.(contentTy := 0.0, backdropAlpha := 1.0, navTy := 0.0, navAlpha := 1.0)
    case _ => s
  }

  /** All heights of a run of callbacks are positive. */
  predicate PositiveHeights(events: seq<PanEvent>)
  {
    forall i :: 0 <= i < |events| ==> events[i].height > 0.0
  }

  /** The navigation bar is either shown in place or hidden and slid down;
      the pan handler never leaves it anywhere else. */
  predicate NavBarSettled(s: PanState)
  {
    (s.navTy == 0.0 && s.navAlpha == 1.0) || (s.navTy == NavBarDragOffset && s.navAlpha == 0.0)
  }

  /** A run of pan callbacks, delivered in order. The run keeps the backdrop
      alpha at most 1 and the navigation bar settled, and a dismissal, once
      started, stays started: further callbacks are not blocked, but none
      of them clears the flag. */
  function PanRun(s: PanState, events: seq<PanEvent>): (r: PanState)
    requires PositiveHeights(events)
    ensures s.dismissed ==> r.dismissed
    ensures s.backdropAlpha <= 1.0 ==> r.backdropAlpha <= 1.0
    ensures NavBarSettled(s) ==> NavBarSettled(r)
    decreases |events|
  {
    if events == [] then s
    else
      assert events[0].height > 0.0;
      PanRun(PanStep(s, events[0]), events[1..])
  }

  /** The direction of a dismissal comes from the transform currently
      applied (the last drag translation, 0 after a reset, a full height
      after a dismissal), not from the translation reported at the end: a
      downward flick that was never preceded by a drag callback is sent up,
      and so is one that follows a reset. */
  lemma DirectionFromPreviousTransform()
    ensures PanStep(InitialPan, PanEvent(Ended, 100.0, 800.0, 1000.0)).contentTy == -1000.0
    ensures PanRun(InitialPan, [PanEvent(Changed, 100.0, 0.0, 1000.0), PanEvent(Ended, -600.0, 0.0, 1000.0)]).contentTy == 1000.0
    ensures PanRun(InitialPan, [PanEvent(Changed, 100.0, 0.0, 1000.0), PanEvent(Ended, 100.0, 0.0, 1000.0),
                                PanEvent(Ended, 100.0, 800.0, 1000.0)]).contentTy == -1000.0
  {
    var reset := [PanEvent(Changed, 100.0, 0.0, 1000.0), PanEvent(Ended, 100.0, 0.0, 1000.0),
                  PanEvent(Ended, 100.0, 800.0, 1000.0)];
    assert !IsDismissing(100.0, 0.0, 1000.0);
    assert reset[1..] == [PanEvent(Ended, 100.0, 0.0, 1000.0), PanEvent(Ended, 100.0, 800.0, 1000.0)];
    assert reset[1..][1..] == [PanEvent(Ended, 100.0, 800.0, 1000.0)];
    var s1 := PanStep(InitialPan, PanEvent(Changed, 100.0, 0.0, 1000.0));
    assert s1.contentTy == 100.0;
    assert [PanEvent(Changed, 100.0, 0.0, 1000.0), PanEvent(Ended, -600.0, 0.0, 1000.0)][1..] == [PanEvent(Ended, -600.0, 0.0, 1000.0)];
  }

  /** The three drags of a 1000-point view: 600 points at rest dismiss, 100
      points at 800 per second dismiss, 100 points at 50 per second reset. */
  lemma DismissScenarios()
    ensures IsDismissing(600.0, 0.0, 1000.0)
    ensures IsDismissing(100.0, 800.0, 1000.0)
    ensures !IsDismissing(100.0, 50.0, 1000.0)
    ensures !IsDismissing(500.0, 500.0, 1000.0)
  {
  }
}
