/** Channel data as the plot sees it: samples of one channel, and the registry
    that hands a plot the samples of a channel, if that channel has any. */
module Samples {

  /** A channel identifier: every channel is keyed by a single character. */
  type Id = char

  /** One data point of a channel: its time (or other x value) and its value. */
  datatype Sample = Sample(x: real, y: real)

  /** The stored samples of one channel, in storage order. */
  type Series = seq<Sample>

  /** The data registry: a channel the registry does not know has no entry. */
  type Registry = map<Id, Series>

  /** The values (y components) of a channel's samples, position by position. */
  function Ys(d: Series): (ys: seq<real>)
    ensures |ys| == |d|
    ensures forall i :: 0 <= i < |d| ==> ys[i] == d[i].y
  {
    seq(|d|, i requires 0 <= i < |d| => d[i].y)
  }

  /** The largest element of a non-empty sequence of values. */
  function SeqMax(s: seq<real>): (m: real)
    requires |s| > 0
    ensures m in s
    ensures forall i :: 0 <= i < |s| ==> s[i] <= m
  {
    if |s| == 1 then s[0]
    else
      var m' := SeqMax(s[..|s| - 1]);
      assert s[..|s| - 1][0] == s[0];
      if s[|s| - 1] > m' then s[|s| - 1] else m'
  }

  /** The smallest element of a non-empty sequence of values. */
  function SeqMin(s: seq<real>): (m: real)
    requires |s| > 0
    ensures m in s
    ensures forall i :: 0 <= i < |s| ==> m <= s[i]
  {
    if |s| == 1 then s[0]
    else
      var m' := SeqMin(s[..|s| - 1]);
      assert s[..|s| - 1][0] == s[0];
      if s[|s| - 1] < m' then s[|s| - 1] else m'
  }
}
