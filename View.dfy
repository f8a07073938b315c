/** What a plot shows in one frame: the x range, which samples of the external
    x-axis channel fall inside it, and the autoscaled bounds of the two y axes. */
module View {
  import opened Samples
  import opened Membership

  /** One of the two y axes of a plot. */
  type Slot = s: int | 0 <= s < 2

  /** The axis fields of a plot that the limit computation reads. */
  datatype Settings = Settings(
    otherXAxis: bool,  // another channel's values serve as the x axis
    xAxis: Id,         // that channel
    realtime: bool,    // that x axis follows its latest value
    autoscale: bool,
    timeFrame: real)   // width of the visible window

  /** The x range of a frame; `emitted` says whether it is imposed on the x axis. */
  datatype XRange = XRange(lo: real, hi: real, emitted: bool)

  /** The running bounds of one y axis; `present` is false until a visible
      sample has been seen for that axis. */
  datatype AxisBounds = AxisBounds(lo: real, hi: real, present: bool)

  /** The bounds an axis starts with, and keeps when no sample is visible. */
  const Unset := AxisBounds(0.0, 1.0, false)

  /** What decides whether a sample is visible: the x range and, when another
      channel is the x axis, the mask over that channel's samples. */
  datatype Visibility = Visibility(lo: real, hi: real, other: bool, mask: seq<bool>)

  /** The limits one frame sets: nothing while paused, otherwise the x range,
      the visibility mask, whether the y axes are autoscaled and their bounds,
      and whether y axis 0 is reported as missing. */
  datatype Limits =
    | Frozen
    | Limits(x: XRange, mask: seq<bool>, yScaled: bool, y: seq<AxisBounds>, axis0Missing: bool)

  /** The x axis is another channel's values, and that channel has data. */
  predicate External(cfg: Settings, registry: Registry) {
    cfg.otherXAxis && cfg.xAxis in registry
  }

  /** `order` lists every key of `yAxis` once: a traversal of the map. */
  predicate EnumeratesKeys(order: seq<Id>, yAxis: map<Id, Slot>) {
    NoDups(order) && forall id :: id in order <==> id in yAxis
  }

  /** Every plotted channel with data is no longer than a mask of length `n`. */
  predicate MaskCovers(yAxis: map<Id, Slot>, registry: Registry, n: nat) {
    forall id :: id in yAxis && id in registry ==> |registry[id]| <= n
  }

  // ---------------------------------------------------------------- x range

  /** The x range of a frame: the last `timeFrame` of time; or, when another
      channel is the x axis, the window ending at its largest value (realtime),
      its whole span (autoscale), or the default [0, 1] left unimposed. */
  function XWindow(time: real, cfg: Settings, registry: Registry): (r: XRange)
    ensures !External(cfg, registry) ==> r == XRange(time - cfg.timeFrame, time, true)
    ensures External(cfg, registry) && cfg.realtime ==>
      var xs := Ys(registry[cfg.xAxis]);
      && r.emitted && r.lo == r.hi - cfg.timeFrame
      && (|xs| == 0 ==> r.hi == 0.0)
      && (|xs| > 0 ==> r.hi in xs && forall i :: 0 <= i < |xs| ==> xs[i] <= r.hi)
    ensures External(cfg, registry) && !cfg.realtime && cfg.autoscale ==>
      var xs := Ys(registry[cfg.xAxis]);
      && r.emitted
      && (|xs| == 0 ==> r.lo == 0.0 && r.hi == 1.0)
      && (|xs| > 0 ==> r.lo in xs && r.hi in xs && forall i :: 0 <= i < |xs| ==> r.lo <= xs[i] <= r.hi)
    ensures External(cfg, registry) && !cfg.realtime && !cfg.autoscale ==> r == XRange(0.0, 1.0, false)
  {
    if External(cfg, registry) then
      var xs := Ys(registry[cfg.xAxis]);
      if cfg.realtime then
        var latest := if |registry[cfg.xAxis]| > 0 then SeqMax(xs) else 0.0;
        XRange(latest - cfg.timeFrame, latest, true)
      else if cfg.autoscale then
        if |registry[cfg.xAxis]| > 0 then XRange(SeqMin(xs), SeqMax(xs), true)
        else XRange(0.0, 1.0, true)
      else
        XRange(0.0, 1.0, false)
    else
      XRange(time - cfg.timeFrame, time, true)
  }

  // ---------------------------------------------------------------- visibility mask

  /** Position by position, whether an x value lies in [lo, hi]. */
  function Mask(xs: seq<real>, lo: real, hi: real): seq<bool> {
    seq(|xs|, i requires 0 <= i < |xs| => lo <= xs[i] <= hi)
  }

  /** Builds the mask over the external x values: all false, then each value
      inside the closed range [lo, hi] is marked. */
  method VisibilityMask(xs: seq<real>, lo: real, hi: real) returns (mask: seq<bool>)
    ensures |mask| == |xs|
    ensures forall i :: 0 <= i < |xs| ==> (mask[i] <==> lo <= xs[i] <= hi)
  {
    mask := seq(|xs|, _ => false);
    var i := 0;
    while i < |xs|
      invariant 0 <= i <= |xs| && |mask| == |xs|
      invariant forall j :: 0 <= j < i ==> (mask[j] <==> lo <= xs[j] <= hi)
      invariant forall j :: i <= j < |xs| ==> !mask[j]
    {
      if xs[i] <= hi && xs[i] >= lo {
        mask := mask[i := true];
      }
      i := i + 1;
    }
  }

  /** Widening the range never hides a sample the narrower range showed. */
  lemma MaskMonotone(xs: seq<real>, lo: real, hi: real, lo': real, hi': real)
    requires lo' <= lo && hi <= hi'
    ensures forall i :: 0 <= i < |xs| && Mask(xs, lo, hi)[i] ==> Mask(xs, lo', hi')[i]
  {
  }

  /** With an autoscaled external x axis every one of its samples is visible;
      with a realtime one the latest sample is, whenever the window is not
      negative. */
  lemma ExternalWindowShows(time: real, cfg: Settings, registry: Registry)
    requires External(cfg, registry) && |registry[cfg.xAxis]| > 0
    ensures var xs := Ys(registry[cfg.xAxis]); var w := XWindow(time, cfg, registry);
      && (!cfg.realtime && cfg.autoscale ==> forall i :: 0 <= i < |xs| ==> Mask(xs, w.lo, w.hi)[i])
      && (cfg.realtime && cfg.timeFrame >= 0.0 ==> exists i :: 0 <= i < |xs| && Mask(xs, w.lo, w.hi)[i])
  {
    var xs := Ys(registry[cfg.xAxis]);
    var w := XWindow(time, cfg, registry);
    if cfg.realtime && cfg.timeFrame >= 0.0 {
      var i :| 0 <= i < |xs| && xs[i] == w.hi;
      assert Mask(xs, w.lo, w.hi)[i];
    }
  }

  // ---------------------------------------------------------------- y autoscale

  /** One step of the running bounds of an axis on a visible value: the first
      value sets both bounds; later ones lower the minimum or raise the maximum. */
  function Step(b: AxisBounds, v: real): AxisBounds {
    if !b.present then AxisBounds(v, v, true)
    else if v < b.lo then b.(lo := v)
    else if v > b.hi then b.(hi := v)
    else b
  }

  /** The running bounds after stepping through `vs` in order from `Unset`. */
  function Scan(vs: seq<real>): AxisBounds {
    if |vs| == 0 then Unset else Step(Scan(vs[..|vs| - 1]), vs[|vs| - 1])
  }

  /** Scanning one more value is one more step. */
  lemma ScanSnoc(vs: seq<real>, v: real)
    ensures Scan(vs + [v]) == Step(Scan(vs), v)
  {
  }

  /** The running bounds are exact: none for no values, otherwise precisely
      the minimum and the maximum of the values, in whatever order they come. */
  lemma {:induction false} ScanIsMinMax(vs: seq<real>)
    ensures Scan(vs).present <==> |vs| > 0
    ensures |vs| == 0 ==> Scan(vs) == Unset
    ensures |vs| > 0 ==> Scan(vs).lo == SeqMin(vs) && Scan(vs).hi == SeqMax(vs)
    ensures |vs| > 0 ==> Scan(vs).lo in vs && Scan(vs).hi in vs
    ensures forall i :: 0 <= i < |vs| ==> Scan(vs).lo <= vs[i] <= Scan(vs).hi
  {
    if |vs| > 1 {
      var p := vs[..|vs| - 1];
      ScanIsMinMax(p);
      assert SeqMin(p) <= p[0] <= SeqMax(p);
    }
  }

  /** Whether sample `i` of a channel is visible: its own x lies in the range,
      or, with another channel as the x axis, the mask marks position `i`. */
  predicate InView(d: Series, i: int, v: Visibility)
    requires 0 <= i < |d|
  {
    (v.lo <= d[i].x <= v.hi && !v.other) || (v.other && i < |v.mask| && v.mask[i])
  }

  /** The values of the visible samples among the first `n` of a channel. */
  function VisibleYs(d: Series, n: nat, v: Visibility): seq<real>
    requires n <= |d|
  {
    if n == 0 then []
    else VisibleYs(d, n - 1, v) + (if InView(d, n - 1, v) then [d[n - 1].y] else [])
  }

  /** The visible values a channel contributes to axis `s`. */
  function ChannelYs(id: Id, s: Slot, yAxis: map<Id, Slot>, registry: Registry, v: Visibility): seq<real> {
    if id in yAxis && yAxis[id] == s && id in registry && |registry[id]| > 0
    then VisibleYs(registry[id], |registry[id]|, v)
    else []
  }

  /** The visible values the first `k` channels of `order` contribute to axis `s`. */
  function SlotYs(order: seq<Id>, k: nat, s: Slot, yAxis: map<Id, Slot>, registry: Registry, v: Visibility): seq<real>
    requires k <= |order|
  {
    if k == 0 then []
    else SlotYs(order, k - 1, s, yAxis, registry, v) + ChannelYs(order[k - 1], s, yAxis, registry, v)
  }

  /** Sample `i` of channel `id` is plotted on axis `s` and visible. */
  predicate Contributes(id: Id, i: int, s: Slot, yAxis: map<Id, Slot>, registry: Registry, v: Visibility) {
    id in yAxis && yAxis[id] == s && id in registry && 0 <= i < |registry[id]| && InView(registry[id], i, v)
  }

  /** Bounds `b` of axis `s` are exact against a brute-force reading of all
      samples: present iff some visible sample is on the axis, and then the
      least and the greatest of those samples' values. */
  ghost predicate ExactBounds(b: AxisBounds, s: Slot, yAxis: map<Id, Slot>, registry: Registry, v: Visibility) {
    && (b.present <==> exists id, i :: Contributes(id, i, s, yAxis, registry, v))
    && (!b.present ==> b == Unset)
    && (b.present ==>
          && (exists id, i :: Contributes(id, i, s, yAxis, registry, v) && registry[id][i].y == b.lo)
          && (exists id, i :: Contributes(id, i, s, yAxis, registry, v) && registry[id][i].y == b.hi)
          && (forall id, i :: Contributes(id, i, s, yAxis, registry, v) ==> b.lo <= registry[id][i].y <= b.hi))
  }

  lemma {:induction false} VisibleYsMembers(d: Series, n: nat, v: Visibility, y: real)
    requires n <= |d|
    ensures y in VisibleYs(d, n, v) <==> exists i :: 0 <= i < n && InView(d, i, v) && d[i].y == y
  {
    if n > 0 {
      VisibleYsMembers(d, n - 1, v, y);
    }
  }

  lemma {:induction false} SlotYsMembers(order: seq<Id>, k: nat, s: Slot, yAxis: map<Id, Slot>, registry: Registry, v: Visibility, y: real)
    requires k <= |order|
    ensures y in SlotYs(order, k, s, yAxis, registry, v) <==>
      exists j, i :: 0 <= j < k && Contributes(order[j], i, s, yAxis, registry, v) && registry[order[j]][i].y == y
  {
    if k > 0 {
      SlotYsMembers(order, k - 1, s, yAxis, registry, v, y);
      var id := order[k - 1];
      if id in yAxis && yAxis[id] == s && id in registry && |registry[id]| > 0 {
        VisibleYsMembers(registry[id], |registry[id]|, v, y);
      }
    }
  }

  /** The bounds the scan of all channels computes for an axis are exact. */
  lemma AutoscaleExact(order: seq<Id>, s: Slot, yAxis: map<Id, Slot>, registry: Registry, v: Visibility)
    requires EnumeratesKeys(order, yAxis)
    ensures ExactBounds(Scan(SlotYs(order, |order|, s, yAxis, registry, v)), s, yAxis, registry, v)
  {
    var vs := SlotYs(order, |order|, s, yAxis, registry, v);
    var b := Scan(vs);
    ScanIsMinMax(vs);
    forall id, i | Contributes(id, i, s, yAxis, registry, v)
      ensures registry[id][i].y in vs
    {
      var j :| 0 <= j < |order| && order[j] == id;
      SlotYsMembers(order, |order|, s, yAxis, registry, v, registry[id][i].y);
    }
    if b.present {
      SlotYsMembers(order, |order|, s, yAxis, registry, v, b.lo);
      SlotYsMembers(order, |order|, s, yAxis, registry, v, b.hi);
      forall id, i | Contributes(id, i, s, yAxis, registry, v)
        ensures b.lo <= registry[id][i].y <= b.hi
      {
        var k :| 0 <= k < |vs| && vs[k] == registry[id][i].y;
      }
    }
  }

  /** Scans the samples of one channel in storage order, stepping the running
      bounds of its axis on every visible one. */
  method ScanChannel(d: Series, v: Visibility, b: AxisBounds, ghost before: seq<real>)
    returns (b': AxisBounds)
    requires v.other ==> |d| <= |v.mask|
    requires b == Scan(before)
    ensures b' == Scan(before + VisibleYs(d, |d|, v))
  {
    b' := b;
    var i := 0;
    assert before + VisibleYs(d, 0, v) == before;
    while i < |d|
      invariant 0 <= i <= |d|
      invariant b' == Scan(before + VisibleYs(d, i, v))
    {
      ghost var seen := before + VisibleYs(d, i, v);
      if (v.lo <= d[i].x <= v.hi && !v.other) || (v.other && v.mask[i]) {
        if !b'.present {
          b' := AxisBounds(d[i].y, d[i].y, true);
        } else if d[i].y < b'.lo {
          b' := b'.(lo := d[i].y);
        } else if d[i].y > b'.hi {
          b' := b'.(hi := d[i].y);
        }
        assert before + VisibleYs(d, i + 1, v) == seen + [d[i].y];
        ScanSnoc(seen, d[i].y);
      } else {
        assert before + VisibleYs(d, i + 1, v) == seen;
      }
      i := i + 1;
    }
  }

  /** Scans every channel of the plot, in map order, keeping running bounds
      per y axis over the visible samples. */
  method AutoscaleY(order: seq<Id>, yAxis: map<Id, Slot>, registry: Registry, v: Visibility)
    returns (bounds: seq<AxisBounds>)
    requires EnumeratesKeys(order, yAxis)
    requires v.other ==> MaskCovers(yAxis, registry, |v.mask|)
    ensures |bounds| == 2
    ensures forall s :: 0 <= s < 2 ==> bounds[s] == Scan(SlotYs(order, |order|, s, yAxis, registry, v))
    ensures forall s :: 0 <= s < 2 ==> ExactBounds(bounds[s], s, yAxis, registry, v)
  {
    bounds := [Unset, Unset];
    var k := 0;
    while k < |order|
      invariant 0 <= k <= |order| && |bounds| == 2
      invariant forall s :: 0 <= s < 2 ==> bounds[s] == Scan(SlotYs(order, k, s, yAxis, registry, v))
    {
      var id := order[k];
      var c := yAxis[id];
      if id in registry && |registry[id]| > 0 {
        var b := ScanChannel(registry[id], v, bounds[c], SlotYs(order, k, c, yAxis, registry, v));
        bounds := bounds[c := b];
      }
      forall s | 0 <= s < 2
        ensures bounds[s] == Scan(SlotYs(order, k + 1, s, yAxis, registry, v))
      {
        ChannelStep(order, k, s, yAxis, registry, v);
      }
      k := k + 1;
    }
    forall s | 0 <= s < 2 ensures ExactBounds(bounds[s], s, yAxis, registry, v) {
      AutoscaleExact(order, s, yAxis, registry, v);
    }
  }

  /** Taking in the next channel of `order` appends its visible values to the
      axis it is drawn on, and nothing to the other axis. */
  lemma ChannelStep(order: seq<Id>, k: nat, s: Slot, yAxis: map<Id, Slot>, registry: Registry, v: Visibility)
    requires k < |order|
    ensures var before := SlotYs(order, k, s, yAxis, registry, v); var id := order[k];
      SlotYs(order, k + 1, s, yAxis, registry, v) ==
        if id in yAxis && yAxis[id] == s && id in registry && |registry[id]| > 0
        then before + VisibleYs(registry[id], |registry[id]|, v)
        else before
  {
  }

  // ---------------------------------------------------------------- one frame

  /** Whether the y axes are autoscaled this frame: autoscale is on and the
      first channel in map order has data. */
  predicate ScalesY(cfg: Settings, registry: Registry, order: seq<Id>)
    requires cfg.autoscale ==> |order| > 0
  {
    cfg.autoscale && order[0] in registry
  }

  /** The limits of one frame, from the plot's settings, its axis map, the
      registry's data and the current time. */
  function PlotLimits(paused: bool, time: real, cfg: Settings, yAxis: map<Id, Slot>, registry: Registry, order: seq<Id>): Limits
    requires !paused && cfg.autoscale ==> |order| > 0
  {
    if paused then Frozen
    else
      var x := XWindow(time, cfg, registry);
      var mask := if External(cfg, registry) then Mask(Ys(registry[cfg.xAxis]), x.lo, x.hi) else [];
      var v := Visibility(x.lo, x.hi, cfg.otherXAxis, mask);
      var scaled := ScalesY(cfg, registry, order);
      var y := if scaled
        then [Scan(SlotYs(order, |order|, 0, yAxis, registry, v)), Scan(SlotYs(order, |order|, 1, yAxis, registry, v))]
        else [Unset, Unset];
      Limits(x, mask, scaled, y, scaled && !y[0].present)
  }

  /** While paused a frame sets nothing; otherwise its x range follows
      XWindow and its mask marks exactly the external x values in that range. */
  lemma XLimitsMeaning(paused: bool, time: real, cfg: Settings, yAxis: map<Id, Slot>, registry: Registry, order: seq<Id>)
    requires !paused && cfg.autoscale ==> |order| > 0
    ensures var r := PlotLimits(paused, time, cfg, yAxis, registry, order);
      && (r.Frozen? <==> paused)
      && (r.Limits? ==> r.x == XWindow(time, cfg, registry))
      && (r.Limits? ==>
            && |r.mask| == (if External(cfg, registry) then |registry[cfg.xAxis]| else 0)
            && forall i :: 0 <= i < |r.mask| ==> (r.mask[i] <==> r.x.lo <= registry[cfg.xAxis][i].y <= r.x.hi))
  {
  }

  /** Unless paused, the y axes are autoscaled exactly when autoscale is on and
      the first channel in map order has data; autoscaled bounds are exact per
      axis, and axis 0 is reported missing exactly when no visible sample is on it. */
  lemma YLimitsMeaning(time: real, cfg: Settings, yAxis: map<Id, Slot>, registry: Registry, order: seq<Id>)
    requires EnumeratesKeys(order, yAxis)
    requires cfg.autoscale ==> |order| > 0
    ensures var r := PlotLimits(false, time, cfg, yAxis, registry, order);
      var v := Visibility(r.x.lo, r.x.hi, cfg.otherXAxis, r.mask);
      && |r.y| == 2 && (r.yScaled <==> ScalesY(cfg, registry, order))
      && (!r.yScaled ==> r.y == [Unset, Unset] && !r.axis0Missing)
      && (r.yScaled ==>
            && (forall s :: 0 <= s < 2 ==> ExactBounds(r.y[s], s, yAxis, registry, v))
            && (r.axis0Missing <==> !(exists id, i :: Contributes(id, i, 0, yAxis, registry, v))))
  {
    var r := PlotLimits(false, time, cfg, yAxis, registry, order);
    var x := XWindow(time, cfg, registry);
    var mask := if External(cfg, registry) then Mask(Ys(registry[cfg.xAxis]), x.lo, x.hi) else [];
    var v := Visibility(x.lo, x.hi, cfg.otherXAxis, mask);
    assert r.x == x && r.mask == mask;
    if ScalesY(cfg, registry, order) {
      var b0 := Scan(SlotYs(order, |order|, 0, yAxis, registry, v));
      var b1 := Scan(SlotYs(order, |order|, 1, yAxis, registry, v));
      assert r.y == [b0, b1];
      AutoscaleExact(order, 0, yAxis, registry, v);
      AutoscaleExact(order, 1, yAxis, registry, v);
      assert forall s :: 0 <= s < 2 ==> r.y[s] == if s == 0 then b0 else b1;
    }
  }

  /** Two channels, the first on axis 0 with values 1, 5, 3 and the second on
      axis 1 with values 10, 2, all visible: the axes scale to [1, 5] and [2, 10]. */
  lemma TwoChannelExample()
    ensures var registry := map['a' := [Sample(0.0, 1.0), Sample(1.0, 5.0), Sample(2.0, 3.0)],
                                'b' := [Sample(0.0, 10.0), Sample(1.0, 2.0)]];
      var yAxis: map<Id, Slot> := map['a' := 0, 'b' := 1];
      var v := Visibility(0.0, 2.0, false, []);
      && Scan(SlotYs(['a', 'b'], 2, 0, yAxis, registry, v)) == AxisBounds(1.0, 5.0, true)
      && Scan(SlotYs(['a', 'b'], 2, 1, yAxis, registry, v)) == AxisBounds(2.0, 10.0, true)
  {
    var a := [Sample(0.0, 1.0), Sample(1.0, 5.0), Sample(2.0, 3.0)];
    var b := [Sample(0.0, 10.0), Sample(1.0, 2.0)];
    var registry := map['a' := a, 'b' := b];
    var yAxis: map<Id, Slot> := map['a' := 0, 'b' := 1];
    var v := Visibility(0.0, 2.0, false, []);
    assert VisibleYs(a, 3, v) == [1.0, 5.0, 3.0] by {
      assert VisibleYs(a, 1, v) == [1.0];
      assert VisibleYs(a, 2, v) == [1.0, 5.0];
    }
    assert VisibleYs(b, 2, v) == [10.0, 2.0] by {
      assert VisibleYs(b, 1, v) == [10.0];
    }
    assert SlotYs(['a', 'b'], 1, 0, yAxis, registry, v) == [] + [1.0, 5.0, 3.0];
    assert SlotYs(['a', 'b'], 2, 0, yAxis, registry, v) == [1.0, 5.0, 3.0] + [];
    assert SlotYs(['a', 'b'], 1, 1, yAxis, registry, v) == [] + [];
    assert SlotYs(['a', 'b'], 2, 1, yAxis, registry, v) == [] + [10.0, 2.0];
    ScanSnoc([1.0], 5.0);
    ScanSnoc([1.0, 5.0], 3.0);
    ScanSnoc([10.0], 2.0);
    assert [1.0, 5.0] + [3.0] == [1.0, 5.0, 3.0];
    assert [1.0] + [5.0] == [1.0, 5.0];
    assert [10.0] + [2.0] == [10.0, 2.0];
    ScanSnoc([], 1.0);
    ScanSnoc([], 10.0);
    assert [] + [1.0] == [1.0] && [] + [10.0] == [10.0];
    assert [1.0, 5.0, 3.0] + [] == [1.0, 5.0, 3.0];
    assert Scan([1.0, 5.0]) == AxisBounds(1.0, 5.0, true);
    assert Scan([1.0, 5.0, 3.0]) == AxisBounds(1.0, 5.0, true);
  }
}
