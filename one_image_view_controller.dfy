/** The state of the iOS single-image viewer and the handlers that change
    it: the `options` setter, the pan handler, the two zoom delegates, the
    choice of image loads and navigation items made while the subviews are
    set up, and the close button. The views themselves are reduced to the
    properties these handlers write. */
module OneImageView {

  import opened Wrappers
  import opened ViewerOptions
  import opened PanGesture
  import opened ZoomClamp
  import opened ImageSource

  /** The bar button items the navigation bar can hold. */
  datatype BarItem = CloseItem | ShareItem

  /** The single navigation item: close on the right, share on the left when
      sharing is enabled. */
  datatype NavigationItem = NavigationItem(right: BarItem, left: Option<BarItem>)

  function NavigationItemFor(isShare: bool): (item: NavigationItem)
    ensures item.right == CloseItem
    ensures item.left.Some? <==> isShare
    ensures item.left.Some? ==> item.left.value == ShareItem
  {
    NavigationItem(CloseItem, if isShare then Some(ShareItem) else None)
  }

  /** The user info posted when the viewer is closed. */
  datatype ExitPayload = ExitPayload(result: bool, imageIndex: int)

  class OneImageViewController {
    var url: string
    var startFrom: int
    var options: Options

    // fields written by the options setter
    var isShare: bool
    var maxZoomScale: real
    var minZoomScale: real
    var compressionQuality: real
    var backgroundColor: string
    var btColor: Tint
    var blurHidden: bool

    // view properties written by the gesture and zoom handlers
    var zoomScale: real
    var contentTy: real
    var backdropAlpha: real
    var navTy: real
    var navAlpha: real
    var dismissed: bool

    function Configuration(): Config
      reads this
    {
      Config(isShare, maxZoomScale, minZoomScale, compressionQuality, backgroundColor, btColor, blurHidden)
    }

    function Pan(): PanState
      reads this
    {
      PanState(contentTy, backdropAlpha, navTy, navAlpha, dismissed)
    }

    function Zoom(): ZoomView
      reads this
    {
      ZoomView(zoomScale, navAlpha)
    }

    constructor ()
      ensures url == "" && startFrom == 0 && options == map[]
      ensures Configuration() == DefaultConfig
      ensures Pan() == InitialPan && zoomScale == 1.0
    {
      url, startFrom, options := "", 0, map[];
      isShare, maxZoomScale, minZoomScale, compressionQuality := true, 3.0, 1.0, 0.8;
      backgroundColor, btColor, blurHidden := "black", White, false;
      zoomScale := 1.0;
      contentTy, backdropAlpha, navTy, navAlpha, dismissed := 0.0, 1.0, 0.0, 1.0, false;
    }

    /** Assigning the `options` property. */
    method SetOptions(newValue: Options)
      modifies this`options, this`isShare, this`maxZoomScale, this`compressionQuality,
               this`backgroundColor, this`btColor, this`blurHidden
      ensures options == newValue
      ensures Configuration() == ApplyOptions(old(Configuration()), newValue)
      ensures minZoomScale == old(minZoomScale)
      ensures old(btColor) == Black ==> btColor == Black
    {
      options := newValue;
      // each key: present, and castable to the field's type
      if "share" in options && options["share"].BoolV? {
        isShare := options["share"].b;
      }
      if "maxzoomscale" in options && options["maxzoomscale"].DoubleV? {
        maxZoomScale := options["maxzoomscale"].d;
      }
      if "compressionquality" in options && options["compressionquality"].DoubleV? {
        compressionQuality := options["compressionquality"].d;
      }
      if "backgroundcolor" in options && options["backgroundcolor"].StringV? {
        backgroundColor := options["backgroundcolor"].s;
        if backgroundColor in LightColors {
          btColor := Black;
        }
        blurHidden := backgroundColor != "blur";
      }
    }

    /** `handlePanGesture`: one callback of the pan recogniser. */
    method HandlePanGesture(state: GestureState, translationY: real, velocityY: real, height: real)
      requires height > 0.0
      modifies this`contentTy, this`backdropAlpha, this`navTy, this`navAlpha, this`dismissed
      ensures Pan() == PanStep(old(Pan()), PanEvent(state, translationY, velocityY, height))
      ensures (state == Ended || state == Cancelled) ==>
                (dismissed == (old(dismissed) || IsDismissing(translationY, velocityY, height)))
    {
      var progress := Progress(translationY, height);
      match state
      case Changed =>
        contentTy := translationY;
        backdropAlpha := 1.0 - progress;
        navTy, navAlpha := NavBarDragOffset, 0.0;
      case Ended | Cancelled =>
        var velocity := velocityY;
        var isFastSwipe := Abs(velocity) > DismissVelocity;
        var isSignificantDrag := progress > DismissProgress;
        var isDismissing := isFastSwipe || isSignificantDrag;
        if isDismissing {
          var finalY := if contentTy > 0.0 then height else -height;
          contentTy := finalY;
          backdropAlpha := 0.0;
          dismissed := true;
        } else {
          contentTy := 0.0;
          backdropAlpha := 1.0;
          navTy := 0.0;
          navAlpha := 1.0;
        }
      case _ =>
    }

    /** `scrollViewDidZoom`: the scroll view has just set `zoomScale`. */
    method ScrollViewDidZoom()
      modifies this`zoomScale, this`navAlpha
      ensures Zoom() == DidZoom(old(Zoom()), minZoomScale, maxZoomScale)
      ensures minZoomScale <= maxZoomScale ==> minZoomScale <= zoomScale <= maxZoomScale
    {
      if zoomScale <= minZoomScale {
        zoomScale := minZoomScale;
        navAlpha := 1.0;
      } else if zoomScale > maxZoomScale {
        zoomScale := maxZoomScale;
      } else {
        navAlpha := 0.0;
      }
    }

    /** `scrollViewDidEndZooming`; the reported final scale is not used. */
    method ScrollViewDidEndZooming(atScale: real)
      modifies this`zoomScale
      ensures Zoom() == DidEndZooming(old(Zoom()), minZoomScale)
      ensures old(zoomScale) > minZoomScale ==> zoomScale == old(zoomScale)
    {
      if zoomScale <= minZoomScale {
        zoomScale := minZoomScale;
      }
    }

    /** The decisions `addSubviewsToParentView` takes from the state: which
        image loads it starts and which navigation item it installs. */
    method SubviewPlan() returns (remoteLoad: bool, localLoad: bool, item: NavigationItem)
      ensures remoteLoad == IsRemoteSource(url) && localLoad == IsLocalSource(url)
      ensures remoteLoad <==> StartsWith(url, "http") || Contains(url, "base64")
      ensures localLoad <==> StartsWith(url, LocalPhotoLibrary) || StartsWith(url, LocalCapacitorFile)
      ensures item.right == CloseItem && (item.left == Some(ShareItem) <==> isShare)
      ensures !isShare ==> item.left == None
    {
      remoteLoad := IsRemoteSource(url);
      localLoad := IsLocalSource(url);
      item := NavigationItemFor(isShare);
    }

    /** `closeButtonTapped`: the exit notification's payload, then the
        dismissal. */
    method CloseButtonTapped() returns (payload: ExitPayload)
      modifies this`dismissed
      ensures payload == ExitPayload(true, startFrom)
      ensures dismissed
    {
      payload := ExitPayload(true, startFrom);
      dismissed := true;
    }
  }

  /** A viewer opened with a light background and then sent an unrelated
      dictionary keeps its black buttons and its bounds, and a pinch past the
      maximum is capped at the default 3. */
  method StickyTintScenario() returns (tint: Tint, minZoom: real, zoom: real)
    ensures tint == Black && minZoom == 1.0 && zoom == 3.0
  {
    var viewer := new OneImageViewController();
    viewer.SetOptions(map["backgroundcolor" := StringV("ivory"), "share" := BoolV(false)]);
    assert viewer.btColor == Black && !viewer.isShare && viewer.blurHidden;
    viewer.SetOptions(map["backgroundcolor" := StringV("darkgrey"), "maxzoomscale" := StringV("5")]);
    assert viewer.maxZoomScale == 3.0;
    viewer.zoomScale := 7.5;
    viewer.ScrollViewDidZoom();
    tint, minZoom, zoom := viewer.btColor, viewer.minZoomScale, viewer.zoomScale;
  }
}
