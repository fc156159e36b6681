/** The breakpoint classifier: maps a viewport width (and height, echoed back)
    and four pixel thresholds to a descriptor of five exclusive buckets
    xs, sm, md, lg, xl, a bucket name and eleven range flags. */
module Breakpoint {

  /** The four pixel boundaries. The source does not validate their order,
      so any four integers are admitted. */
  datatype Thresholds = Thresholds(xs: int, sm: int, md: int, lg: int)

  /** The thresholds used until an install option replaces them. */
  const Defaults: Thresholds := Thresholds(600, 960, 1280 - 16, 1920 - 16)

  /** Thresholds in non-decreasing order (the intended configuration). */
  predicate Ordered(t: Thresholds) {
    t.xs <= t.sm <= t.md <= t.lg
  }

  /** The boundaries in the order the classifier tests them. */
  function Boundaries(t: Thresholds): seq<int> {
    [t.xs, t.sm, t.md, t.lg]
  }

  /** The value of the `$breakpoint` computed property. */
  datatype Descriptor = Descriptor(
    xs: bool, sm: bool, md: bool, lg: bool, xl: bool,
    name: string,
    xsOnly: bool, smOnly: bool, smAndDown: bool, smAndUp: bool,
    mdOnly: bool, mdAndDown: bool, mdAndUp: bool,
    lgOnly: bool, lgAndDown: bool, lgAndUp: bool,
    xlOnly: bool,
    width: int, height: int)

  /** Bucket names, indexed by rank: 0 is xs, 4 is xl. */
  const Labels: seq<string> := ["xs", "sm", "md", "lg", "xl"]

  /** The bucket flag of rank i. */
  function Bucket(d: Descriptor, i: nat): bool
    requires i < 5
  {
    match i
    case 0 => d.xs
    case 1 => d.sm
    case 2 => d.md
    case 3 => d.lg
    case _ => d.xl
  }

  /** The rank of the first bucket flag that is set, xl when none of the
      first four is. */
  function Rank(d: Descriptor): (r: nat)
    ensures r < 5
    ensures r < 4 ==> Bucket(d, r)
    ensures forall i :: 0 <= i < r ==> !Bucket(d, i)
  {
    if d.xs then 0 else if d.sm then 1 else if d.md then 2 else if d.lg then 3 else 4
  }

  /** Reference definition of the bucket: the index of the first boundary
      that the width lies below, or |bs| when it lies below none. */
  function FirstAbove(w: int, bs: seq<int>): (i: nat)
    ensures i <= |bs|
    ensures forall j :: 0 <= j < i ==> bs[j] <= w
    ensures i < |bs| ==> w < bs[i]
  {
    if bs == [] then 0
    else if w < bs[0] then 0
    else 1 + FirstAbove(w, bs[1..])
  }

  /** The number of boundaries the width has reached. */
  function Reached(w: int, bs: seq<int>): nat {
    if bs == [] then 0
    else (if bs[0] <= w then 1 else 0) + Reached(w, bs[1..])
  }

  /** Boundaries in non-decreasing order. */
  predicate Sorted(bs: seq<int>) {
    forall i, j :: 0 <= i < j < |bs| ==> bs[i] <= bs[j]
  }

  /** The `$breakpoint` computation: a chain of bucket tests where each
      bucket excludes every earlier one, ranges in AND-NOT form, and the
      name chosen by first match. Exactly one bucket is set whatever the
      thresholds, and the name is that bucket's label. */
  function Classify(width: int, height: int, t: Thresholds): (d: Descriptor)
    ensures d.width == width && d.height == height
    ensures forall i :: 0 <= i < 5 ==> (Bucket(d, i) <==> i == Rank(d))
    ensures d.name == Labels[Rank(d)]
  {
    var xs := width < t.xs;
    var sm := width < t.sm && !xs;
    var md := width < t.md && !(sm || xs);
    var lg := width < t.lg && !(md || sm || xs);
    var xl := width >= t.lg && !(lg || md || sm || xs);
    var name :=
      if xs then "xs"
      else if sm then "sm"
      else if md then "md"
      else if lg then "lg"
      else "xl";
    Descriptor(
      xs, sm, md, lg, xl,
      name,
      xs, sm,
      (xs || sm) && !(md || lg || xl),
      !xs && (sm || md || lg || xl),
      md,
      (xs || sm || md) && !(lg || xl),
      !(xs || sm) && (md || lg || xl),
      lg,
      (xs || sm || md || lg) && !xl,
      !(xs || sm || md) && (lg || xl),
      xl,
      width, height)
  }

  /** Each `*Only` flag is its bucket, and since the buckets are exclusive
      the AND-NOT ranges are plain cumulative disjunctions; the down and up
      ranges that meet are complements. */
  lemma RangesAreCumulative(w: int, h: int, t: Thresholds)
    ensures var d := Classify(w, h, t);
      d.xsOnly == d.xs && d.smOnly == d.sm && d.mdOnly == d.md &&
      d.lgOnly == d.lg && d.xlOnly == d.xl
    ensures var d := Classify(w, h, t);
      (d.smAndDown <==> d.xs || d.sm) &&
      (d.smAndUp <==> !d.xs) &&
      (d.mdAndDown <==> d.xs || d.sm || d.md) &&
      (d.mdAndUp <==> d.md || d.lg || d.xl) &&
      (d.lgAndDown <==> !d.xl) &&
      (d.lgAndUp <==> d.lg || d.xl)
    ensures var d := Classify(w, h, t);
      d.smAndDown == !d.mdAndUp && d.mdAndDown == !d.lgAndUp
  {
  }

  /** The ranges in terms of the bucket rank: `kAndDown` holds up to rank k
      and `kAndUp` from rank k on. */
  lemma RangesByRank(w: int, h: int, t: Thresholds)
    ensures var d := Classify(w, h, t);
      (d.smAndDown <==> Rank(d) <= 1) && (d.smAndUp <==> 1 <= Rank(d)) &&
      (d.mdAndDown <==> Rank(d) <= 2) && (d.mdAndUp <==> 2 <= Rank(d)) &&
      (d.lgAndDown <==> Rank(d) <= 3) && (d.lgAndUp <==> 3 <= Rank(d))
  {
  }

  /** Whatever the thresholds, the bucket is the first boundary the width
      lies below (xs for the first, ..., xl when it reaches all four). */
  lemma ClassifyIsFirstAbove(w: int, h: int, t: Thresholds)
    ensures Rank(Classify(w, h, t)) == FirstAbove(w, Boundaries(t))
  {
    var bs := Boundaries(t);
    assert bs[1..] == [t.sm, t.md, t.lg];
    assert bs[1..][1..] == [t.md, t.lg];
    assert bs[1..][1..][1..] == [t.lg];
    assert bs[1..][1..][1..][1..] == [];
    var tail := FirstAbove(w, [t.lg]);
    assert tail == if w < t.lg then 0 else 1;
    var fromMd := FirstAbove(w, [t.md, t.lg]);
    assert fromMd == if w < t.md then 0 else 1 + tail;
    var fromSm := FirstAbove(w, [t.sm, t.md, t.lg]);
    assert fromSm == if w < t.sm then 0 else 1 + fromMd;
    assert FirstAbove(w, bs) == if w < t.xs then 0 else 1 + fromSm;
  }

  /** A smaller width never lands in a later bucket than a larger one; it
      follows from the contract of FirstAbove: the boundary above the larger
      width is above the smaller one too. */
  lemma FirstAboveMonotone(w1: int, w2: int, bs: seq<int>)
    requires w1 <= w2
    ensures FirstAbove(w1, bs) <= FirstAbove(w2, bs)
  {
  }

  /** Monotonicity of the classification. It needs no ordering of the
      thresholds: a width below some boundary keeps every smaller width
      below it too. */
  lemma RankMonotone(w1: int, h1: int, w2: int, h2: int, t: Thresholds)
    requires w1 <= w2
    ensures Rank(Classify(w1, h1, t)) <= Rank(Classify(w2, h2, t))
  {
    ClassifyIsFirstAbove(w1, h1, t);
    ClassifyIsFirstAbove(w2, h2, t);
    FirstAboveMonotone(w1, w2, Boundaries(t));
  }

  /** A width below every boundary has reached none of them. */
  lemma {:induction false} NoneReached(w: int, bs: seq<int>)
    requires forall i :: 0 <= i < |bs| ==> w < bs[i]
    ensures Reached(w, bs) == 0
    decreases |bs|
  {
    if bs != [] {
      NoneReached(w, bs[1..]);
    }
  }

  /** On sorted boundaries the first boundary above the width is found
      after exactly the boundaries the width has reached. */
  lemma {:induction false} FirstAboveCountsReached(w: int, bs: seq<int>)
    requires Sorted(bs)
    ensures FirstAbove(w, bs) == Reached(w, bs)
    decreases |bs|
  {
    if bs == [] {
    } else if w < bs[0] {
      NoneReached(w, bs);
    } else {
      FirstAboveCountsReached(w, bs[1..]);
    }
  }

  /** With ordered thresholds the bucket rank is the number of thresholds
      the width has reached. */
  lemma OrderedRankCountsReached(w: int, h: int, t: Thresholds)
    requires Ordered(t)
    ensures Rank(Classify(w, h, t)) == Reached(w, Boundaries(t))
  {
    ClassifyIsFirstAbove(w, h, t);
    FirstAboveCountsReached(w, Boundaries(t));
  }

  /** With ordered thresholds each bucket is a half-open interval of widths,
      the five intervals tiling the integers. */
  lemma OrderedBucketsAreIntervals(w: int, h: int, t: Thresholds)
    requires Ordered(t)
    ensures var d := Classify(w, h, t);
      (d.xs <==> w < t.xs) &&
      (d.sm <==> t.xs <= w < t.sm) &&
      (d.md <==> t.sm <= w < t.md) &&
      (d.lg <==> t.md <= w < t.lg) &&
      (d.xl <==> t.lg <= w)
  {
  }

  /** The default boundaries, at both sides of each threshold. */
  lemma DefaultBoundaryWidths(h: int)
    ensures Classify(599, h, Defaults).xs && Classify(599, h, Defaults).name == "xs"
    ensures Classify(600, h, Defaults).sm && Classify(959, h, Defaults).sm
    ensures Classify(960, h, Defaults).md && Classify(1263, h, Defaults).md
    ensures Classify(1264, h, Defaults).lg && Classify(1903, h, Defaults).lg
    ensures var d := Classify(1904, h, Defaults);
      d.xl && d.name == "xl" && d.xlOnly && d.lgAndUp && d.mdAndUp && d.smAndUp
  {
  }

  /** Under the defaults `smAndDown` holds exactly below 960 pixels. */
  lemma DefaultSmAndDown(w: int, h: int)
    ensures Classify(w, h, Defaults).smAndDown <==> w < 960
  {
    RangesAreCumulative(w, h, Defaults);
  }

  /** A custom configuration: with boundaries 100, 200, 300, 400 a width of
      250 is md, and md both from below and from above. */
  lemma CustomThresholdsExample(h: int)
    ensures var d := Classify(250, h, Thresholds(100, 200, 300, 400));
      d.md && d.name == "md" && d.mdOnly && d.mdAndDown && d.mdAndUp &&
      !d.smAndDown && !d.lgAndUp
  {
  }
}
