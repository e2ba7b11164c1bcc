/** The zoom delegates of the iOS viewer. `scrollViewDidZoom` pulls the
    scroll view's zoom scale back into [minimum, maximum] and shows the
    navigation bar at the minimum and hides it while zoomed in;
    `scrollViewDidEndZooming` only re-raises a scale at or below the minimum.
    Both read the scale the scroll view reports and overwrite it. */
module ZoomClamp {

  /** What the zoom delegates read and write: the scroll view's zoom scale
      and the navigation bar's alpha. */
  datatype ZoomView = ZoomView(zoomScale: real, navAlpha: real)

  /** `scrollViewDidZoom`. */
  function DidZoom(v: ZoomView, minZoom: real, maxZoom: real): (r: ZoomView)
    // the clamp: with sane bounds the scale ends inside them
    ensures minZoom <= maxZoom ==> minZoom <= r.zoomScale <= maxZoom
    // a scale strictly inside the range is left alone and hides the navigation bar
    ensures minZoom < v.zoomScale <= maxZoom ==> r == ZoomView(v.zoomScale, 0.0)
    // at or below the minimum: snap to it and show the navigation bar
    ensures v.zoomScale <= minZoom ==> r == ZoomView(minZoom, 1.0)
    // above the maximum: cap it and leave the navigation bar as it is
    ensures minZoom < v.zoomScale && maxZoom < v.zoomScale ==> r == ZoomView(maxZoom, v.navAlpha)
  {
    if v.zoomScale <= minZoom then ZoomView(minZoom, 1.0)
    else if v.zoomScale > maxZoom then v.(zoomScale := maxZoom)
    else v.(navAlpha := 0.0)
  }

  /** `scrollViewDidEndZooming`: the scale becomes the larger of itself and
      the minimum; the navigation bar is not touched. */
  function DidEndZooming(v: ZoomView, minZoom: real): (r: ZoomView)
    ensures r.navAlpha == v.navAlpha
    ensures r.zoomScale >= minZoom && r.zoomScale >= v.zoomScale
    ensures r.zoomScale == v.zoomScale || r.zoomScale == minZoom
    ensures v.zoomScale > minZoom ==> r == v
  {
    if v.zoomScale <= minZoom then v.(zoomScale := minZoom) else v
  }

  /** Ending a zoom twice is ending it once. */
  lemma DidEndZoomingIdempotent(v: ZoomView, minZoom: real)
    ensures DidEndZooming(DidEndZooming(v, minZoom), minZoom) == DidEndZooming(v, minZoom)
  {
  }

  /** With sane bounds, a clamped scale needs no further correction at the
      end of the zoom. */
  lemma EndAfterZoomIsNoOp(v: ZoomView, minZoom: real, maxZoom: real)
    requires minZoom <= maxZoom
    ensures DidEndZooming(DidZoom(v, minZoom, maxZoom), minZoom) == DidZoom(v, minZoom, maxZoom)
  {
  }

  /** The delegate callbacks a pinch produces: the scroll view sets a new
      scale and reports the zoom, or reports the end of the zoom. */
  datatype ZoomEvent = Zoomed(scale: real) | EndedZooming

  predicate InRange(v: ZoomView, minZoom: real, maxZoom: real)
  {
    minZoom <= v.zoomScale <= maxZoom
  }

  /** A run of zoom callbacks, delivered in order. With sane bounds the run
      keeps the scale in range once it is in range, and a run that ends in a
      zoom report leaves it in range whatever came before. */
  function ZoomRun(v: ZoomView, events: seq<ZoomEvent>, minZoom: real, maxZoom: real): (r: ZoomView)
    ensures minZoom <= maxZoom && InRange(v, minZoom, maxZoom) ==> InRange(r, minZoom, maxZoom)
    ensures minZoom <= maxZoom && events != [] && events[|events| - 1].Zoomed? ==> InRange(r, minZoom, maxZoom)
    ensures (v.navAlpha == 0.0 || v.navAlpha == 1.0) ==> (r.navAlpha == 0.0 || r.navAlpha == 1.0)
    decreases |events|
  {
    if events == [] then v
    else
      var next := match events[0]
        case Zoomed(scale) => DidZoom(v.(zoomScale := scale), minZoom, maxZoom)
        case EndedZooming => DidEndZooming(v, minZoom);
      var r := ZoomRun(next, events[1..], minZoom, maxZoom);
      assert |events| > 1 ==> events[1..][|events[1..]| - 1] == events[|events| - 1];
      r
  }

  /** The bounds of the default configuration: 0.5 snaps to 1.0 and shows
      the navigation bar, 5.0 is capped at 3.0, 2.0 stays and hides it. */
  lemma DefaultBoundsScenarios(navAlpha: real)
    ensures DidZoom(ZoomView(0.5, navAlpha), 1.0, 3.0) == ZoomView(1.0, 1.0)
    ensures DidZoom(ZoomView(5.0, navAlpha), 1.0, 3.0) == ZoomView(3.0, navAlpha)
    ensures DidZoom(ZoomView(2.0, navAlpha), 1.0, 3.0) == ZoomView(2.0, 0.0)
  {
  }
}
