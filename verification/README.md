# vue-md-breakpoint — breakpoint classifier model

This project models the Vue mixin `src/breakpoint.js`. The mixin gives every
component its viewport `clientWidth`/`clientHeight` and a computed
`$breakpoint` descriptor. The descriptor holds five exclusive size buckets
(`xs`, `sm`, `md`, `lg`, `xl`), the bucket `name`, eleven range flags
(`xsOnly`, `smAndDown`, `mdAndUp`, …) and the echoed width and height. The
buckets come from four pixel thresholds: 600, 960, 1264 and 1904 by default,
or a set given at `install` time that replaces the defaults.

- `Classifier.dfy` (module `Breakpoint`) is the pure part. It holds the
  thresholds, the descriptor and `Classify`, the `$breakpoint` computation
  written with the source's bucket chain, AND-NOT ranges and first-match
  name. Beside them are a reference definition of the bucket, `FirstAbove`
  (the index of the first boundary the width lies below), and lemmas that
  relate the two.
- `Plugin.dfy` (module `Mixin`) is the stateful part. Class `Plugin` holds
  the module-level threshold set that `install` reassigns. Class `Component`
  holds the dimensions that the mixin's `data()` starts at zero, and its
  function `Breakpoint` reads them and the plugin's current thresholds.

Widths, heights and thresholds are unbounded integers. DOM widths are
integers, and the source does no arithmetic on them.

Three results are worth knowing.

- Exactly one bucket is set for any width and any four thresholds. Ordered
  thresholds are not needed.
- Monotonicity also holds for any thresholds: a wider viewport never lands
  in an earlier bucket. Ordering matters only for each bucket being the
  interval between its two thresholds.
- Under the defaults `smAndDown` (`xs || sm`) holds exactly for widths
  below 960, not below the md threshold 1264 (`DefaultSmAndDown`).

## Model

| member | source | states |
|---|---|---|
| `Breakpoint.Classify` | src/breakpoint.js:45-112 | for any width, height and thresholds exactly one of the five buckets is set, `name` is that bucket's label, and width and height are echoed unchanged |
| `Breakpoint.Rank` | src/breakpoint.js:64-81 | the first-match order xs, sm, md, lg, with xl as fallback, picks a set bucket when one of the first four is set and skips only unset ones |
| `Breakpoint.FirstAbove` | src/breakpoint.js:46-50 | reference bucket: an index no boundary before which exceeds the width, and whose boundary (if any) does |
| `Breakpoint.ClassifyIsFirstAbove` | src/breakpoint.js:46-50 | whatever the thresholds, the bucket chain selects the first boundary the width lies below, xl when it reaches all four |
| `Breakpoint.RangesAreCumulative` | src/breakpoint.js:52-62 | each `*Only` flag equals its bucket; the AND-NOT ranges equal cumulative disjunctions (`smAndDown = xs or sm`, `smAndUp = not xs`, `lgAndDown = not xl`, …); `smAndDown = not mdAndUp` and `mdAndDown = not lgAndUp` |
| `Breakpoint.RangesByRank` | src/breakpoint.js:54-61 | `kAndDown` holds exactly for buckets up to k and `kAndUp` exactly for buckets from k on |
| `Breakpoint.FirstAboveMonotone` | src/breakpoint.js:46-50 | a smaller width never finds a later first boundary above it |
| `Breakpoint.RankMonotone` | src/breakpoint.js:46-50 | the bucket is monotone in the width, for any thresholds |
| `Breakpoint.NoneReached` | src/breakpoint.js:46-50 | a width below every boundary has reached none of them |
| `Breakpoint.FirstAboveCountsReached` | src/breakpoint.js:46-50 | on sorted boundaries the first boundary above the width comes right after the ones it has reached |
| `Breakpoint.OrderedRankCountsReached` | src/breakpoint.js:46-50 | with ordered thresholds the bucket rank is the number of thresholds the width has reached |
| `Breakpoint.OrderedBucketsAreIntervals` | src/breakpoint.js:46-50 | with ordered thresholds xs is below `xs`, sm is from `xs` to below `sm`, md from `sm` to below `md`, lg from `md` to below `lg`, xl from `lg` up |
| `Breakpoint.DefaultBoundaryWidths` | src/breakpoint.js:22-27 | under the defaults 599 is xs, 600 and 959 are sm, 960 and 1263 are md, 1264 and 1903 are lg, and 1904 is xl with `xlOnly`, `lgAndUp`, `mdAndUp` and `smAndUp` |
| `Breakpoint.DefaultSmAndDown` | src/breakpoint.js:54 | under the defaults `smAndDown` holds exactly for widths below 960 |
| `Breakpoint.CustomThresholdsExample` | src/breakpoint.js:46-61 | with thresholds 100, 200, 300 and 400, width 250 is md, with `mdOnly`, `mdAndDown` and `mdAndUp` but neither `smAndDown` nor `lgAndUp` |
| `Mixin.Plugin.constructor` | src/breakpoint.js:22-27 | the shared threshold set starts as the defaults |
| `Mixin.Plugin.Install` | src/breakpoint.js:31-35 | given `breakpoints` replace the whole set; without them the set is unchanged |
| `Mixin.Component.constructor` | src/breakpoint.js:38-43 | a component's dimensions start at zero |
| `Mixin.Component.Breakpoint` | src/breakpoint.js:45-112 | the computed property echoes the component's dimensions and is named after the first current threshold its width lies below |
| `Mixin.BeforeFirstMeasurement` | src/breakpoint.js:22-43 | before its first measurement, under the kept defaults, a component is xs with zero width and height |
| `Mixin.ClassifyAfterOverride` | src/breakpoint.js:31-45 | after an override a component is classified against the given thresholds alone |

## Left out

- `_updateDimensions` (src/breakpoint.js:115-122) is left out. It reads `document.documentElement` and `window`, which is DOM I/O.
- The `mounted`/`destroyed` hooks (src/breakpoint.js:124-133) are left out. They are framework lifecycle (`$nextTick`) and the registration of the resize listener.
- `Vue.mixin` injection and Vue reactivity are left out. The computed property is modelled as a function that reads the component and the plugin.
- JavaScript value edge cases are not modelled: NaN widths (every bucket false), partial `breakpoints` objects (missing fields compare as `undefined`), and `options` itself undefined. Thresholds are four required integers, and an absent or falsy `options.breakpoints` is `None`.
- Mixin.Plugin.Install: the override is modelled as a snapshot of the four threshold values, not as a shared reference to the caller's `options.breakpoints` object; a later mutation of that object, which the source would see on every subsequent classification, is not captured.
- Concurrency: none exists. Every component reads the one shared threshold set, which `Plugin` models as a single object.
