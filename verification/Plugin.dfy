/** The plugin state around the classifier: the module-level threshold set
    that `install` may replace, and the per-component dimensions that the
    `$breakpoint` computed property classifies. */
module Mixin {
  import opened Breakpoint

  datatype Option<T> = None | Some(value: T)

  /** The install options; only `breakpoints` is recognised. An absent
      (or falsy) `breakpoints` is None. */
  datatype Options = Options(breakpoints: Option<Thresholds>)

  /** The module-level threshold set shared by every component. */
  class Plugin {
    var breakpoints: Thresholds

    constructor ()
      ensures breakpoints == Defaults
    {
      breakpoints := Defaults;
    }

    /** Given thresholds replace the whole set, field by field nothing is
        merged; without them the current set is kept. */
    method Install(options: Options)
      modifies this
      ensures options.breakpoints.Some? ==> breakpoints == options.breakpoints.value
      ensures options.breakpoints.None? ==> breakpoints == old(breakpoints)
    {
      if options.breakpoints.Some? {
        breakpoints := options.breakpoints.value;
      }
    }
  }

  /** The data the mixin adds to a component: its measured dimensions. */
  class Component {
    var clientWidth: int
    var clientHeight: int

    /** Dimensions start at zero, before the first measurement. */
    constructor ()
      ensures clientWidth == 0 && clientHeight == 0
    {
      clientWidth, clientHeight := 0, 0;
    }

    /** The `$breakpoint` computed property: the component's dimensions
        classified against the plugin's current thresholds. */
    function Breakpoint(p: Plugin): (d: Descriptor)
      reads this, p
      ensures d.width == clientWidth && d.height == clientHeight
      ensures d.name == Labels[FirstAbove(clientWidth, Boundaries(p.breakpoints))]
    {
      ClassifyIsFirstAbove(clientWidth, clientHeight, p.breakpoints);
      Classify(clientWidth, clientHeight, p.breakpoints)
    }
  }

  /** A component rendered before its first measurement, with the default
      thresholds kept by an install without options, is xs. */
  method BeforeFirstMeasurement() returns (d: Descriptor)
    ensures d.xs && d.name == "xs" && d.width == 0 && d.height == 0
  {
    var p := new Plugin();
    p.Install(Options(None));
    var c := new Component();
    d := c.Breakpoint(p);
  }

  /** After an override every component is classified against the new set
      alone: none of the defaults remain in effect. */
  method ClassifyAfterOverride(t: Thresholds, width: int, height: int) returns (d: Descriptor)
    ensures d.name == Labels[FirstAbove(width, Boundaries(t))]
    ensures d.width == width && d.height == height
  {
    var p := new Plugin();
    p.Install(Options(Some(t)));
    var c := new Component();
    c.clientWidth, c.clientHeight := width, height;
    d := c.Breakpoint(p);
  }
}
