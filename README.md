# Photo viewer rules, modelled in Dafny

This project models the deterministic rules inside a Capacitor photo-viewer
plugin. It covers the iOS single-image view controller
(`OneImageViewController`) and the Android background-colour helper
(`BackgroundColor.setBackColor`). UIKit views are reduced to the properties
the handlers write. CGFloat and Double are modelled as `real`.

- `background_color.dfy` (module `BackgroundColor`): the Kotlin `when` lookup
  from a colour name to one of seven colour resources, with black as the
  fallback.
- `viewer_options.dfy` (module `ViewerOptions`): the `options` setter as a
  function over a `map<string, Value>`. A key takes effect only when it is
  present with the expected dynamic type. The button tint is sticky.
- `pan_gesture.dfy` (module `PanGesture`): progress, the dismissal thresholds,
  the dismissal direction, and one step of `handlePanGesture`. It also holds
  runs of pan callbacks and the invariants they keep.
- `zoom_clamp.dfy` (module `ZoomClamp`): `scrollViewDidZoom` and
  `scrollViewDidEndZooming` as functions on the zoom scale and the navigation
  bar alpha, plus runs of zoom callbacks.
- `image_source.dfy` (module `ImageSource`): the two URL tests that choose the
  remote loader and the local-file loader.
- `one_image_view_controller.dfy` (module `OneImageView`): the view controller
  as a class whose fields are the state the handlers mutate. Each method's
  `ensures` ties the new state to the functions above.
- `wrappers.dfy`: an `Option` type.

Behaviours of the code that a reader might not expect:

- The dismissal direction comes from the content transform currently
  applied, not from the translation reported at the end. That transform is
  the last `.changed` translation, 0 after a reset, or plus or minus the
  height after a dismissal.
- Pan callbacks that arrive after a dismissal has started are not ignored.
  They run the same rules; only the `dismissed` flag is monotone.
- The progress division has no guard for a zero height. A positive height is
  a precondition; it is not defined as 0.
- The button tint is not a pure function of the current colour name. It
  switches to black for a light name and is never switched back to white.
- Numeric options are not range-checked. Any `Double` is taken as the maximum
  zoom scale or the compression quality.

## Model

| member | source | states |
|---|---|---|
| BackgroundColor.SetBackColor | android/src/main/java/com/getcapacitor/community/media/photoviewer/helper/BackgroundColor.kt:6-19 | each of the six names selects its own resource, as an if-and-only-if; every other string gives black |
| BackgroundColor.NameOf | android/src/main/java/com/getcapacitor/community/media/photoviewer/helper/BackgroundColor.kt:8-16 | every resource other than black is selected by one of the known names |
| BackgroundColor.ResolveRoundTrip | android/src/main/java/com/getcapacitor/community/media/photoviewer/helper/BackgroundColor.kt:8-16 | every resource is reachable; a name that does not fall back is the only name of its resource |
| BackgroundColor.ExactMatchOnly | android/src/main/java/com/getcapacitor/community/media/photoviewer/helper/BackgroundColor.kt:8-16 | matching is exact and case-sensitive: "White", "white ", "" and "black" all give black |
| ImageSource.Prefix | ios/Plugin/OnePhoto/OneImageViewController.swift:202-205 | Swift `prefix(n)` gives the first min(n, length) characters, and they are a prefix of the string |
| ImageSource.Contains | ios/Plugin/OnePhoto/OneImageViewController.swift:176 | the substring test holds iff the pattern starts at some position of the string |
| ImageSource.PrefixEquals | ios/Plugin/OnePhoto/OneImageViewController.swift:202-205 | comparing the first length-of-p characters with p is the same as p being a prefix |
| ImageSource.IsRemoteSource | ios/Plugin/OnePhoto/OneImageViewController.swift:176 | the remote load starts iff the URL starts with "http" or contains "base64" anywhere |
| ImageSource.IsLocalSource | ios/Plugin/OnePhoto/OneImageViewController.swift:202-205 | the local load starts iff the URL starts with the photo-library path or the Capacitor file-server prefix |
| ImageSource.BothLoadsCanFire | ios/Plugin/OnePhoto/OneImageViewController.swift:176-210 | the tests are independent: a Capacitor file URL that mentions base64 starts both loads |
| ImageSource.HttpIsNotLocal | ios/Plugin/OnePhoto/OneImageViewController.swift:176-205 | an "http" URL starts the remote load and never the local one |
| ViewerOptions.BoolOption | ios/Plugin/OnePhoto/OneImageViewController.swift:56-60 | a value is produced iff the key is present and holds a Bool, and it is that Bool |
| ViewerOptions.DoubleOption | ios/Plugin/OnePhoto/OneImageViewController.swift:61-71 | a value is produced iff the key is present and holds a Double, and it is that Double |
| ViewerOptions.StringOption | ios/Plugin/OnePhoto/OneImageViewController.swift:72-75 | a value is produced iff the key is present and holds a String, and it is that String |
| ViewerOptions.ApplyOptions | ios/Plugin/OnePhoto/OneImageViewController.swift:49-83 | each field is overridden iff its key is present with its type, else kept; blur hidden iff name is not "blur"; tint black iff it was black or a light name was given; minimum zoom never changes |
| ViewerOptions.FreshViewerTint | ios/Plugin/OnePhoto/OneImageViewController.swift:24-25 | on a fresh viewer, a background name gives black buttons for white/ivory/lightgrey and white ones otherwise |
| ViewerOptions.ApplyOptionsIdempotent | ios/Plugin/OnePhoto/OneImageViewController.swift:53-83 | assigning the same dictionary twice equals assigning it once |
| ViewerOptions.ApplyHistory | ios/Plugin/OnePhoto/OneImageViewController.swift:72-79 | after a series of assignments the tint is black iff it started black or some assignment named a light background; minimum zoom stays put |
| ViewerOptions.TintIsSticky | ios/Plugin/OnePhoto/OneImageViewController.swift:76-78 | ivory then darkgrey leaves the buttons black, although darkgrey alone gives white |
| PanGesture.Abs | ios/Plugin/OnePhoto/OneImageViewController.swift:274 | the absolute value is non-negative and equals x or -x |
| PanGesture.Progress | ios/Plugin/OnePhoto/OneImageViewController.swift:274 | progress is non-negative and progress × height equals abs(translation), for a positive height |
| PanGesture.IsDismissing | ios/Plugin/OnePhoto/OneImageViewController.swift:289-296 | dismiss iff abs(velocity) > 500 or 2·abs(translation) > height; both comparisons strict |
| PanGesture.DismissTarget | ios/Plugin/OnePhoto/OneImageViewController.swift:298-300 | the content is sent a full height away, downward iff the previously applied offset is positive (0 goes up) |
| PanGesture.DragAlpha | ios/Plugin/OnePhoto/OneImageViewController.swift:281 | the unclamped backdrop alpha is at most 1, is 1 iff the translation is 0, and is negative iff the drag exceeds the height |
| PanGesture.PanStep | ios/Plugin/OnePhoto/OneImageViewController.swift:272-324 | `.changed` moves content, fades backdrop, hides nav bar at offset 50; end/cancel dismisses or resets everything; other phases change nothing; only end/cancel sets `dismissed`, and nothing clears it |
| PanGesture.PanRun | ios/Plugin/OnePhoto/OneImageViewController.swift:272-324 | a run of callbacks keeps `dismissed` once set, backdrop alpha at most 1, and the nav bar either shown in place or hidden and slid down |
| PanGesture.DirectionFromPreviousTransform | ios/Plugin/OnePhoto/OneImageViewController.swift:298-304 | a downward flick with no prior drag goes up; a drag down then an upward end goes down; a fast flick after a reset goes up |
| PanGesture.DismissScenarios | ios/Plugin/OnePhoto/OneImageViewController.swift:289-296 | at height 1000: 600 at rest dismisses, 100 at 800/s dismisses, 100 at 50/s and 500 at 500/s do not |
| ZoomClamp.DidZoom | ios/Plugin/OnePhoto/OneImageViewController.swift:381-394 | with min ≤ max the scale ends in range; at or below min it snaps to min and the nav bar shows; strictly inside it is kept and the nav bar hides; above max it is capped and nav alpha is untouched |
| ZoomClamp.DidEndZooming | ios/Plugin/OnePhoto/OneImageViewController.swift:395-399 | the scale is raised to min only when at or below it, never lowered, and nav alpha is untouched |
| ZoomClamp.DidEndZoomingIdempotent | ios/Plugin/OnePhoto/OneImageViewController.swift:395-399 | ending a zoom twice is ending it once |
| ZoomClamp.EndAfterZoomIsNoOp | ios/Plugin/OnePhoto/OneImageViewController.swift:381-399 | with min ≤ max, the end-of-zoom re-clamp changes nothing after a zoom report |
| ZoomClamp.ZoomRun | ios/Plugin/OnePhoto/OneImageViewController.swift:381-399 | a run of zoom callbacks keeps an in-range scale in range, ends in range after a zoom report, and keeps nav alpha at 0 or 1 |
| ZoomClamp.DefaultBoundsScenarios | ios/Plugin/OnePhoto/OneImageViewController.swift:381-394 | with bounds 1 and 3: 0.5 snaps to 1 with the nav bar shown, 5 caps at 3, 2 stays and hides the nav bar |
| OneImageView.NavigationItemFor | ios/Plugin/OnePhoto/OneImageViewController.swift:212-216 | the close item is always on the right; the share item is on the left iff sharing is enabled |
| OneImageView.OneImageViewController.constructor | ios/Plugin/OnePhoto/OneImageViewController.swift:15-25 | defaults: share on, max zoom 3, min zoom 1, quality 0.8, "black", white buttons, blur visible, identity transforms, opaque views |
| OneImageView.OneImageViewController.SetOptions | ios/Plugin/OnePhoto/OneImageViewController.swift:49-83 | the new configuration is ApplyOptions of the old one; the minimum zoom is unchanged and a black tint stays black |
| OneImageView.OneImageViewController.HandlePanGesture | ios/Plugin/OnePhoto/OneImageViewController.swift:272-324 | the new pan state is PanStep of the old one; an end or cancel leaves `dismissed` iff it was set or the thresholds are crossed |
| OneImageView.OneImageViewController.ScrollViewDidZoom | ios/Plugin/OnePhoto/OneImageViewController.swift:381-394 | the new scale and nav alpha are DidZoom of the old ones; with min ≤ max the scale lies in range |
| OneImageView.OneImageViewController.ScrollViewDidEndZooming | ios/Plugin/OnePhoto/OneImageViewController.swift:395-399 | the new scale is DidEndZooming of the old one; a scale above min is unchanged |
| OneImageView.OneImageViewController.SubviewPlan | ios/Plugin/OnePhoto/OneImageViewController.swift:176-216 | the remote load is IsRemoteSource of the URL, the local load IsLocalSource (each restated as its prefix/substring test), and the navigation item has close always and share iff sharing is on |
| OneImageView.OneImageViewController.CloseButtonTapped | ios/Plugin/OnePhoto/OneImageViewController.swift:335-348 | the exit payload is {result: true, imageIndex: startFrom}, and the viewer is dismissed |
| OneImageView.StickyTintScenario | ios/Plugin/OnePhoto/OneImageViewController.swift:49-83 | ivory then darkgrey with a mistyped max zoom leaves black buttons, min zoom 1, and a pinch to 7.5 capped at 3 |

## Left out

- View hierarchy construction, frames and navigation-bar layout (`addSubviewsToParentView` apart from its decisions, `viewWillTransition`). These are toolkit plumbing.
- Animation durations and curves. Each branch is modelled by the values it animates to.
- Image loading through SDWebImage, its completion handler, and `UIImage.getImage`. These are asynchronous foreign I/O. The model only records which loads start.
- Screenshot capture, the share sheet and JPEG encoding (`captureScreenshot`, `shareButtonTapped`). These are graphics and platform calls.
- Posting to NotificationCenter and the fade transition of `closeButtonTapped`. The payload is returned as a value instead.
- The iOS `BackgroundColor` helper called from `viewDidLoad` is not part of this model. Its mapping is not shown in the modelled files.
- The numeric `R.color` resource identifiers. They are generated code, so resources are an enumeration.
- NaN, infinities and rounding of CGFloat/Double. Reals are exact, and a positive view height is a precondition because the code does not guard the division.
- UIKit's re-entrant `scrollViewDidZoom` call when the delegate itself sets `zoomScale`. Each delegate call is modelled as one step.
- Each `Value` constructor stands for "this cast succeeds", and the
  constructors are mutually exclusive. Foundation bridges `NSNumber` between
  Bool and Double, so `as? Bool` and `as? Double` can both succeed on one
  value. That bridging is not captured.
- Swift `Character` comparison uses grapheme clusters and canonical equivalence. The URL tests are modelled on sequences of `char`.
- `destroyAllGestures`, `viewForZooming`, `prefersStatusBarHidden` and the plain `url`/`startFrom` accessors. They hold no rules beyond storing or returning a value; the accessors are fields of the class.
