/** A plot: the channels it shows, the y axis each is drawn on, its paused
    snapshot, and the axis settings from which each frame's limits come. */
module PlotModel {
  import opened Samples
  import opened Membership
  import opened View

  class Plot {
    /** The plotted channels, in the order they were added. */
    var allPlotData: seq<Id>
    /** The y axis of each plotted channel. */
    var yAxis: map<Id, Slot>
    /** While paused: a copy of each plotted channel's data, position by position. */
    var allPlotPausedData: seq<Series>
    /** While paused: a copy of the external x-axis channel's data. */
    var pausedXAxis: Series
    /** Another channel's values serve as the x axis ... */
    var otherXAxis: bool
    /** ... namely this channel's. */
    var xAxis: Id
    /** The external x axis follows its latest value. */
    var xAxisRealtime: bool
    var autoscale: bool
    /** Width of the visible x window. */
    var timeFrame: real

    /** The channel list has no duplicate and lists exactly the channels that
        have a y axis. */
    ghost predicate Valid()
      reads this
    {
      NoDups(allPlotData) && forall id :: id in allPlotData <==> id in yAxis
    }

    /** The fields the limit computation reads. */
    function AxisSettings(): Settings
      reads this
    {
      Settings(otherXAxis, xAxis, xAxisRealtime, autoscale, timeFrame)
    }

    /** An empty plot with time as its x axis. */
    constructor (timeFrame: real, autoscale: bool, xAxisRealtime: bool)
      ensures Valid()
      ensures allPlotData == [] && yAxis == map[] && allPlotPausedData == [] && pausedXAxis == []
      ensures !otherXAxis && this.timeFrame == timeFrame
      ensures this.autoscale == autoscale && this.xAxisRealtime == xAxisRealtime
    {
      allPlotData := [];
      yAxis := map[];
      allPlotPausedData := [];
      pausedXAxis := [];
      otherXAxis := false;
      xAxis := ' ';
      this.xAxisRealtime := xAxisRealtime;
      this.autoscale := autoscale;
      this.timeFrame := timeFrame;
    }

    /** Adds a channel on y axis `slot`: the channel is appended unless already
        plotted, and in both cases its axis becomes `slot`. */
    method AddIdentifier(id: Id, slot: Slot)
      modifies this`allPlotData, this`yAxis
      ensures allPlotData == WithAdded(old(allPlotData), id)
      ensures yAxis == old(yAxis)[id := slot]
      ensures id in allPlotData && yAxis[id] == slot
      ensures old(Valid()) ==> Valid()
    {
      var found := false;
      var i := 0;
      while i < |allPlotData|
        invariant 0 <= i <= |allPlotData|
        invariant id !in allPlotData[..i]
      {
        if allPlotData[i] == id {
          found := true;
          break;
        }
        i := i + 1;
      }
      assert found <==> id in allPlotData;
      if !found {
        allPlotData := allPlotData + [id];
      }
      yAxis := yAxis[id := slot];
    }

    /** Removes a channel: its first occurrence leaves the list, which keeps
        the others in order, and its axis entry leaves the map. */
    method RemoveIdentifier(id: Id)
      modifies this`allPlotData, this`yAxis
      ensures allPlotData == WithoutFirst(old(allPlotData), id)
      ensures yAxis == old(yAxis) - {id}
      ensures id !in old(allPlotData) && id !in old(yAxis) ==>
        allPlotData == old(allPlotData) && yAxis == old(yAxis)
      ensures old(Valid()) ==> Valid() && id !in allPlotData
    {
      ghost var ids := allPlotData;
      var i := 0;
      while i < |allPlotData|
        invariant 0 <= i <= |allPlotData|
        invariant allPlotData == ids
        invariant id !in allPlotData[..i]
      {
        if allPlotData[i] == id {
          assert i == FirstIndex(allPlotData, id);
          allPlotData := allPlotData[..i] + allPlotData[i + 1..];
          break;
        }
        i := i + 1;
      }
      assert id !in ids ==> allPlotData == ids by {
        if id !in ids {
          assert ids[..|ids|] == ids;
        }
      }
      // The map is searched key by key, in no particular order.
      var keys := yAxis.Keys;
      ghost var axes := yAxis;
      while keys != {}
        invariant keys <= axes.Keys && yAxis == axes
        invariant id in axes ==> id in keys
        decreases keys
      {
        var key :| key in keys;
        if key == id {
          yAxis := yAxis - {id};
          break;
        }
        keys := keys - {key};
      }
      assert id !in axes ==> axes - {id} == axes;
      if old(Valid()) {
        RemoveFromNoDups(ids, id);
      }
    }

    /** Whether a channel is plotted, by a scan of the channel list. */
    method HasIdentifier(id: Id) returns (b: bool)
      ensures b <==> id in allPlotData
    {
      var i := 0;
      while i < |allPlotData|
        invariant 0 <= i <= |allPlotData|
        invariant id !in allPlotData[..i]
      {
        if allPlotData[i] == id {
          return true;
        }
        i := i + 1;
      }
      assert allPlotData[..i] == allPlotData;
      return false;
    }

    /** Refreshes the paused snapshot: a copy of every plotted channel's data,
        parallel to the channel list, and of the external x axis when one is set. */
    method UpdatePausedData(registry: Registry)
      requires forall id :: id in allPlotData ==> id in registry
      requires otherXAxis ==> xAxis in registry
      modifies this`allPlotPausedData, this`pausedXAxis
      ensures |allPlotPausedData| == |allPlotData|
      ensures forall i :: 0 <= i < |allPlotData| ==> allPlotPausedData[i] == registry[allPlotData[i]]
      ensures otherXAxis ==> pausedXAxis == registry[xAxis]
      ensures !otherXAxis ==> pausedXAxis == old(pausedXAxis)
    {
      allPlotPausedData := [];
      var i := 0;
      while i < |allPlotData|
        invariant 0 <= i <= |allPlotData|
        invariant |allPlotPausedData| == i && pausedXAxis == old(pausedXAxis)
        invariant forall j :: 0 <= j < i ==> allPlotPausedData[j] == registry[allPlotData[j]]
      {
        allPlotPausedData := allPlotPausedData + [registry[allPlotData[i]]];
        i := i + 1;
      }
      if otherXAxis {
        pausedXAxis := registry[xAxis];
      }
    }

    /** The limits of one frame. `order` is the traversal order of the axis
        map, which the map itself leaves unspecified. */
    method MakePlotLimits(paused: bool, time: real, registry: Registry, order: seq<Id>)
      returns (lim: Limits)
      requires EnumeratesKeys(order, yAxis)
      requires !paused && autoscale ==> |order| > 0
      requires !paused && autoscale && order[0] in registry && otherXAxis ==>
        MaskCovers(yAxis, registry, if xAxis in registry then |registry[xAxis]| else 0)
      ensures lim == PlotLimits(paused, time, AxisSettings(), yAxis, registry, order)
    {
      if paused {
        return Frozen;
      }
      var x := XWindow(time, AxisSettings(), registry);
      var mask: seq<bool> := [];
      if otherXAxis && xAxis in registry {
        mask := VisibilityMask(Ys(registry[xAxis]), x.lo, x.hi);
        assert mask == Mask(Ys(registry[xAxis]), x.lo, x.hi);
      }
      var v := Visibility(x.lo, x.hi, otherXAxis, mask);
      var y := [Unset, Unset];
      var scaled := autoscale && order[0] in registry;
      if scaled {
        y := AutoscaleY(order, yAxis, registry, v);
        assert y == [Scan(SlotYs(order, |order|, 0, yAxis, registry, v)), Scan(SlotYs(order, |order|, 1, yAxis, registry, v))] by {
          assert y[0] == Scan(SlotYs(order, |order|, 0, yAxis, registry, v));
          assert y[1] == Scan(SlotYs(order, |order|, 1, yAxis, registry, v));
        }
      }
      lim := Limits(x, mask, scaled, y, scaled && !y[0].present);
    }
  }
}
