# BetterSerialPlotter plot core, modelled in Dafny

BetterSerialPlotter draws live line charts of data channels read from a serial
port. Each `Plot` keeps the list of channels it shows (`all_plot_data`) and the
y axis (0 or 1) each channel is drawn on (`y_axis`). Every frame it computes its
view limits from the channels' data:

- the x range: the last `time_frame` seconds, or, when another channel serves as
  the x axis, a window over that channel's values;
- a visibility mask over that x-axis channel's samples;
- autoscaled bounds for each of the two y axes.

While the plot is paused it shows a snapshot of the data instead.

This project models that core of `src/BetterSerialPlotter/Plot.cpp` and proves
its properties:

- `Samples.dfy`: the channel data as values. A sample is an `(x, y)` pair of
  reals. A channel's data is the sequence of its stored samples. The data
  registry (`get_data`) is a map from identifier to data; a channel the registry
  does not know has no entry. It also holds the largest and smallest value of a
  sequence (`max_element`, `min_element`).
- `Membership.dfy`: the channel list as a value. It defines what adding and
  removing a channel does to the list, and proves that no duplicate appears,
  that order is kept, and that removal undoes an addition.
- `View.dfy`: the frame limits, lines 22-110 of `Plot.cpp`.
  - `XWindow` chooses the x range in its three modes.
  - `VisibilityMask` builds the mask with a loop.
  - `ScanChannel` and `AutoscaleY` run the nested scan that keeps running
    per-axis bounds.
  - `PlotLimits` states the whole frame.
  - The lemmas prove the running bounds exact: an axis has bounds iff some
    visible sample is drawn on it, and the bounds are then the least and the
    greatest of those samples' values, checked against a brute-force reading
    of every sample.
- `Plot.dfy`: class `Plot`, with the source's fields. Its methods
  `AddIdentifier`, `RemoveIdentifier`, `HasIdentifier`, `UpdatePausedData` and
  `MakePlotLimits` scan and update the fields with loops, as the source does.
  Each method is proved against the specification functions above. `Valid()`
  says the list has no duplicate and lists exactly the keys of the axis map;
  adding and removing preserve it.

Where the source leaves behaviour undefined, the model states it as a
precondition:

- `MakePlotLimits` with autoscale on dereferences the first entry of the axis
  map (line 64), so the map must not be empty.
- It indexes the mask by every channel's sample positions (line 83), so with
  another channel as the x axis no plotted channel may be longer than that
  channel's data. If the x-axis channel has no data at all, the mask is empty,
  and every plotted channel must be empty too.
- `UpdatePausedData` dereferences the data of every listed channel and of the
  x-axis channel (lines 319, 321), so those must have data.

The axis map is an unordered map, so its traversal order is unspecified.
`MakePlotLimits` therefore takes that order as a parameter `order`, which lists
each key once. The order matters in one place: the autoscale gate at line 64
looks only at the first key in that order. The bounds themselves do not depend
on the order.

Two behaviours of the code that a reader might not expect, both modelled as
written:

- While paused, `make_plot` computes no limits at all (line 22). The model
  returns `Frozen`. It does not compute limits from the snapshot.
- The external x axis takes its x values from the y components of the x-axis
  channel's samples (line 30).

## Model

| member | source | states |
|---|---|---|
| Samples.SeqMax | src/BetterSerialPlotter/Plot.cpp:36 | the result is an element of the values and no value exceeds it |
| Samples.SeqMin | src/BetterSerialPlotter/Plot.cpp:45 | the result is an element of the values and no value is below it |
| Membership.WithAdded | src/BetterSerialPlotter/Plot.cpp:270-284 | after adding, the channel is listed; membership grows by exactly that channel; the old list is an unchanged prefix with at most one entry appended; no duplicate is introduced |
| Membership.FirstIndex | src/BetterSerialPlotter/Plot.cpp:288-293 | the position found holds the channel and no earlier position does |
| Membership.WithoutFirst | src/BetterSerialPlotter/Plot.cpp:286-293 | erasing an absent channel changes nothing; otherwise the list shrinks by one, and the removed entry is exactly one occurrence of the channel (multiset difference) |
| Membership.AddIdempotent | src/BetterSerialPlotter/Plot.cpp:273-281 | adding a channel twice is the same as adding it once |
| Membership.RemoveKeepsOrder | src/BetterSerialPlotter/Plot.cpp:288-293 | erasing skips exactly the first occurrence and keeps every other entry in its relative order |
| Membership.RemoveFromNoDups | src/BetterSerialPlotter/Plot.cpp:286-302 | on a list without duplicates, after erasing, the channel is gone, every other channel stays, and still no duplicate exists |
| Membership.RemoveUndoesAdd | src/BetterSerialPlotter/Plot.cpp:270-302 | removing a channel just added to a list not holding it restores the list |
| View.XWindow | src/BetterSerialPlotter/Plot.cpp:22-62 | time mode gives [time - time_frame, time]; realtime external axis gives a window of width time_frame ending at the largest external value (0 if there is none); autoscaled external axis spans exactly the least to the greatest external value ([0, 1] if there are none); otherwise [0, 1] and no x limit is set |
| View.VisibilityMask | src/BetterSerialPlotter/Plot.cpp:26-31 | the mask has one entry per external x value, and entry i is true iff that value lies in [x_min, x_max] |
| View.MaskMonotone | src/BetterSerialPlotter/Plot.cpp:50-54 | widening the x range never hides a sample the narrower range showed |
| View.ExternalWindowShows | src/BetterSerialPlotter/Plot.cpp:33-54 | an autoscaled external x axis shows every one of its samples; a realtime one with a non-negative window shows at least one |
| View.ScanIsMinMax | src/BetterSerialPlotter/Plot.cpp:84-96 | the running min/max update of one axis, with its first-value seeding and else-if chain, yields no bounds for no values and otherwise exactly the minimum and maximum of the values |
| View.VisibleYsMembers | src/BetterSerialPlotter/Plot.cpp:79-83 | a value is collected from a channel iff some visible sample of that channel has it |
| View.SlotYsMembers | src/BetterSerialPlotter/Plot.cpp:71-83 | a value is collected for an axis iff some visible sample of some channel on that axis has it |
| View.AutoscaleExact | src/BetterSerialPlotter/Plot.cpp:64-100 | for each axis the scan's bounds exist iff some visible sample is drawn on that axis, are then attained by such samples and enclose all of them, and otherwise stay at the defaults 0 and 1 |
| View.ScanChannel | src/BetterSerialPlotter/Plot.cpp:79-98 | scanning one channel's samples leaves the running bounds equal to those of the values seen so far followed by that channel's visible values |
| View.AutoscaleY | src/BetterSerialPlotter/Plot.cpp:64-100 | returns two bounds, each equal to the scan of its axis's visible values and exact against the brute-force reading of every sample |
| View.XLimitsMeaning | src/BetterSerialPlotter/Plot.cpp:21-62 | a paused frame sets nothing; otherwise the x range is the XWindow one and the mask marks exactly the external x values inside it (empty when there is no external axis) |
| View.YLimitsMeaning | src/BetterSerialPlotter/Plot.cpp:64-109 | y axes are autoscaled iff autoscale is on and the first channel of the axis map has data; then each axis's bounds are exact and axis 0 is reported missing iff no visible sample is on it; otherwise no y limit is set |
| View.TwoChannelExample | src/BetterSerialPlotter/Plot.cpp:71-100 | values 1, 5, 3 on axis 0 and 10, 2 on axis 1, all visible, scale the axes to [1, 5] and [2, 10] |
| PlotModel.Plot.constructor | src/BetterSerialPlotter/Plot.cpp:10-14 | a new plot has no channels, no axis entries and no snapshot, uses time as x axis, and satisfies the invariant |
| PlotModel.Plot.AddIdentifier | src/BetterSerialPlotter/Plot.cpp:270-284 | the list becomes WithAdded of the old list; the channel's axis becomes the given one, other entries unchanged; the channel is listed afterwards; the invariant is preserved |
| PlotModel.Plot.RemoveIdentifier | src/BetterSerialPlotter/Plot.cpp:286-302 | the list becomes WithoutFirst of the old list and the channel's axis entry is erased; removing an absent channel changes nothing; under the invariant the invariant holds again and the channel is no longer listed |
| PlotModel.Plot.HasIdentifier | src/BetterSerialPlotter/Plot.cpp:304-309 | true iff the channel occurs in the list |
| PlotModel.Plot.UpdatePausedData | src/BetterSerialPlotter/Plot.cpp:315-322 | the snapshot has one entry per listed channel, entry i being a copy of the data of channel i; the x-axis snapshot is refreshed iff another channel is the x axis |
| PlotModel.Plot.MakePlotLimits | src/BetterSerialPlotter/Plot.cpp:16-110 | the limits computed from the fields equal PlotLimits, whose meaning XLimitsMeaning and YLimitsMeaning state |

## Left out

- All drawing and input handling: style pushes and pops, `BeginPlot`/`EndPlot`, `plot_data` and its `PlotLine` calls, drag-and-drop targets, context menus and popups, cursor changes (lines 17-20, 113-243, 245-268). They are calls into a GUI library that is not part of this model.
- Choosing or clearing the external x axis from drag-and-drop or the context menu (lines 135-142, 184-187, 202-207). The model keeps `otherXAxis` and `xAxis` as plain fields of the plot.
- Mouse-wheel zoom of the window and dragging to resize the plot (lines 145-148, 222-237). This is float scaling driven by input events.
- The console warning of line 107. It is I/O. The model exposes its condition as the `axis0Missing` output.
- `ScrollingData`'s ring buffer: its capacity, eviction, `Offset`, and the `get_x`/`get_y` accessors. That type is not part of this model. A channel's data is the sequence of its stored samples in storage order.
- The data registry behind `get_data` (lines 311-313) is not part of this model. It becomes the `Registry` map, passed as a parameter.
- Concurrency between serial ingestion and drawing. The plot code contains none.
- Single-precision floating point, NaN and infinities. Values are reals.
- The header declaring the fields, their initial values and the default axis argument of `add_identifier` is not part of this model. The constructor takes the axis settings as parameters, and `AddIdentifier` always takes the axis explicitly.
- The sentinel identifier `-1` stored into `x_axis` when the external axis is cleared (line 206). The model never reads `xAxis` unless `otherXAxis` holds.
- The three vectors `y_min`, `y_max` and `axis_exists` are kept as one record per axis, `AxisBounds(lo, hi, present)`.
