/** The iOS viewer's option parsing: the `options` setter of
    OneImageViewController turns a loosely typed dictionary into the viewer's
    configuration fields. A key takes effect only when it is present AND its
    value has the expected dynamic type; otherwise the field keeps whatever
    value it had before. */
module ViewerOptions {

  import opened Wrappers

  /** A value of the `[String: Any]` dictionary, by its dynamic type. CGFloat
      and Double are both modelled as `real`. */
  datatype Value = BoolV(b: bool) | DoubleV(d: real) | StringV(s: string) | OtherV

  type Options = map<string, Value>

  /** The tint of the close and share buttons. */
  datatype Tint = White | Black

  /** The configuration fields the setter writes, plus the minimum zoom scale,
      which no option sets. `blurHidden` is the hidden flag of the blur view. */
  datatype Config = Config(
    isShare: bool,
    maxZoomScale: real,
    minZoomScale: real,
    compressionQuality: real,
    backgroundColor: string,
    buttonTint: Tint,
    blurHidden: bool)

  /** The field initialisers of the view controller; a freshly created
      visual-effect view is not hidden. */
  const DefaultConfig: Config := Config(true, 3.0, 1.0, 0.8, "black", White, false)

  /** Background names on which the buttons are drawn black. */
  const LightColors: seq<string> := ["white", "ivory", "lightgrey"]

  /** `opts[key] as? Bool`, guarded by the presence test. */
  function BoolOption(opts: Options, key: string): (r: Option<bool>)
    ensures r.Some? <==> key in opts && opts[key].BoolV?
    ensures r.Some? ==> opts[key] == BoolV(r.value)
  {
    if key in opts && opts[key].BoolV? then Some(opts[key].b) else None
  }

  /** `opts[key] as? Double`, guarded by the presence test. */
  function DoubleOption(opts: Options, key: string): (r: Option<real>)
    ensures r.Some? <==> key in opts && opts[key].DoubleV?
    ensures r.Some? ==> opts[key] == DoubleV(r.value)
  {
    if key in opts && opts[key].DoubleV? then Some(opts[key].d) else None
  }

  /** `opts[key] as? String`, guarded by the presence test. */
  function StringOption(opts: Options, key: string): (r: Option<string>)
    ensures r.Some? <==> key in opts && opts[key].StringV?
    ensures r.Some? ==> opts[key] == StringV(r.value)
  {
    if key in opts && opts[key].StringV? then Some(opts[key].s) else None
  }

  /** True when the dictionary selects a light background, which turns the
      buttons black. */
  predicate SelectsLightBackground(opts: Options)
  {
    StringOption(opts, "backgroundcolor").Some? &&
    StringOption(opts, "backgroundcolor").value in LightColors
  }

  /** The effect of assigning `opts` to the `options` property. */
  function ApplyOptions(c: Config, opts: Options): (r: Config)
    // typed override, one key per field; a missing or mistyped key keeps the field
    ensures ("share" in opts && opts["share"].BoolV?) ==> r.isShare == opts["share"].b
    ensures !("share" in opts && opts["share"].BoolV?) ==> r.isShare == c.isShare
    ensures ("maxzoomscale" in opts && opts["maxzoomscale"].DoubleV?) ==> r.maxZoomScale == opts["maxzoomscale"].d
    ensures !("maxzoomscale" in opts && opts["maxzoomscale"].DoubleV?) ==> r.maxZoomScale == c.maxZoomScale
    ensures ("compressionquality" in opts && opts["compressionquality"].DoubleV?) ==>
              r.compressionQuality == opts["compressionquality"].d
    ensures !("compressionquality" in opts && opts["compressionquality"].DoubleV?) ==>
              r.compressionQuality == c.compressionQuality
    ensures ("backgroundcolor" in opts && opts["backgroundcolor"].StringV?) ==>
              r.backgroundColor == opts["backgroundcolor"].s && r.blurHidden == (r.backgroundColor != "blur")
    ensures !("backgroundcolor" in opts && opts["backgroundcolor"].StringV?) ==>
              r.backgroundColor == c.backgroundColor && r.blurHidden == c.blurHidden
    // the tint is sticky: it only ever switches to black
    ensures r.buttonTint == Black <==> c.buttonTint == Black || SelectsLightBackground(opts)
    // no option sets the minimum zoom scale
    ensures r.minZoomScale == c.minZoomScale
  {
    var share := BoolOption(opts, "share");
    var maxZoom := DoubleOption(opts, "maxzoomscale");
    var quality := DoubleOption(opts, "compressionquality");
    var background := StringOption(opts, "backgroundcolor");
    Config(
      isShare := if share.Some? then share.value else c.isShare,
      maxZoomScale := if maxZoom.Some? then maxZoom.value else c.maxZoomScale,
      minZoomScale := c.minZoomScale,
      compressionQuality := if quality.Some? then quality.value else c.compressionQuality,
      backgroundColor := if background.Some? then background.value else c.backgroundColor,
      buttonTint := if background.Some? && background.value in LightColors then Black else c.buttonTint,
      blurHidden := if background.Some? then background.value != "blur" else c.blurHidden)
  }

  /** The contrast rule stated per name: black buttons on a light backdrop,
      white on every other one. */
  function ForegroundTint(name: string): Tint
  {
    if name in LightColors then Black else White
  }

  /** On a freshly created viewer, a dictionary that names a background
      gives the buttons exactly the tint the contrast rule picks for it. */
  lemma FreshViewerTint(opts: Options)
    requires "backgroundcolor" in opts && opts["backgroundcolor"].StringV?
    ensures ApplyOptions(DefaultConfig, opts).buttonTint == ForegroundTint(opts["backgroundcolor"].s)
  {
  }

  /** Assigning the same dictionary twice has the effect of assigning it once. */
  lemma ApplyOptionsIdempotent(c: Config, opts: Options)
    ensures ApplyOptions(ApplyOptions(c, opts), opts) == ApplyOptions(c, opts)
  {
  }

  /** The effect of assigning the dictionaries of `history` one after the
      other. The tint is black at the end exactly when it was black at the
      start or one of the dictionaries selected a light background; the
      minimum zoom scale never moves. */
  function ApplyHistory(c: Config, history: seq<Options>): (r: Config)
    ensures r.buttonTint == Black <==>
              c.buttonTint == Black || exists i :: 0 <= i < |history| && SelectsLightBackground(history[i])
    ensures r.minZoomScale == c.minZoomScale
    decreases |history|
  {
    if history == [] then c
    else
      var r := ApplyHistory(ApplyOptions(c, history[0]), history[1..]);
      assert forall i :: 1 <= i < |history| ==> history[1..][i - 1] == history[i];
      r
  }

  /** The tint is not a function of the current name: a light background
      followed by a dark one leaves the buttons black, although the contrast
      rule gives white for the dark name. */
  lemma TintIsSticky()
    ensures ApplyHistory(DefaultConfig, [map["backgroundcolor" := StringV("ivory")],
                                         map["backgroundcolor" := StringV("darkgrey")]]).buttonTint == Black
    ensures ForegroundTint("darkgrey") == White
  {
    var h := [map["backgroundcolor" := StringV("ivory")], map["backgroundcolor" := StringV("darkgrey")]];
    assert SelectsLightBackground(h[0]);
  }
}
