/**
 * Per-component colour-range arithmetic of the image actor: data ranges
 * that only grow, normalised colour ranges relative to the data range, and
 * the absolute colour range obtained from the two. Numbers are exact reals.
 */
module ColorRanges {
  import opened Wrappers

  /** A `[low, high]` pair. */
  datatype Range = Range(lo: real, hi: real)

  /** The normalised range a component gets when it has none yet. */
  const NormalizedRangeDefault: Range := Range(0.2, 0.8)

  /** The width of a range. */
  function Delta(d: Range): real {
    d.hi - d.lo
  }

  /** `outer` contains `inner`. */
  predicate Covers(outer: Range, inner: Range) {
    outer.lo <= inner.lo && inner.hi <= outer.hi
  }

  /** One bound, from normalised to absolute: its position within the data range. */
  function Scale(d: Range, b: real): real {
    b * Delta(d) + d.lo
  }

  /** One bound, from absolute to normalised. */
  function Unscale(d: Range, b: real): real
    requires Delta(d) != 0.0
  {
    (b - d.lo) / Delta(d)
  }

  /**
   * `computeColorRange`: the absolute colour range a normalised range
   * stands for within a data range; normalised 0 is the low end of the data
   * range and 1 its high end, and widths scale by the data range's width.
   */
  function ColorRange(d: Range, n: Range): (r: Range)
    ensures n == Range(0.0, 1.0) ==> r == d
    ensures Delta(r) == Delta(n) * Delta(d)
  {
    Range(Scale(d, n.lo), Scale(d, n.hi))
  }

  /** `computeNormalizedColorRange`: the normalised range that stands for colour range `c` within data range `d`. */
  function NormalizedColorRange(d: Range, c: Range): (r: Range)
    requires Delta(d) != 0.0
    ensures ColorRange(d, r) == c
  {
    Range(Unscale(d, c.lo), Unscale(d, c.hi))
  }

  /** A normalised range within [0, 1] stands for a colour range within the data range. */
  lemma ColorRangeWithinData(d: Range, n: Range)
    requires d.lo <= d.hi && 0.0 <= n.lo && n.hi <= 1.0
    ensures Covers(d, ColorRange(d, n))
  {
    var w := Delta(d);
    assert w >= 0.0;
    assert n.lo * w >= 0.0;
    assert (1.0 - n.hi) * w >= 0.0;
    assert (1.0 - n.hi) * w == w - n.hi * w;
    assert Scale(d, n.lo) == n.lo * w + d.lo;
    assert Scale(d, n.hi) == n.hi * w + d.lo;
    assert d.hi == w + d.lo;
  }

  /** Going the other way round also returns what it started from. */
  lemma NormalizeColorRange(d: Range, n: Range)
    requires Delta(d) != 0.0
    ensures NormalizedColorRange(d, ColorRange(d, n)) == n
  {
  }

  /** One component's data range after an image is built: the incoming range widened to include the prior one, if any. */
  function GrowRange(prior: Option<Range>, incoming: Range): (r: Range)
    ensures Covers(r, incoming)
    ensures prior.Some? ==> Covers(r, prior.value)
    ensures r.lo == incoming.lo || (prior.Some? && r.lo == prior.value.lo)
    ensures r.hi == incoming.hi || (prior.Some? && r.hi == prior.value.hi)
  {
    match prior
    case None => incoming
    case Some(o) => Range(if incoming.lo <= o.lo then incoming.lo else o.lo,
                          if incoming.hi >= o.hi then incoming.hi else o.hi)
  }

  /**
   * The `dataRanges` updater of `builtImage`: without ranges the data
   * ranges stay; with ranges there is one per incoming component, the
   * smallest range covering both the incoming and the old one.
   */
  function GrowDataRanges(dataRanges: seq<Range>, ranges: Option<seq<Range>>): (r: seq<Range>)
    ensures ranges.None? ==> r == dataRanges
    ensures ranges.Some? ==> |r| == |ranges.value|
    ensures ranges.Some? ==> forall c :: 0 <= c < |r| ==>
      && Covers(r[c], ranges.value[c])
      && (c < |dataRanges| ==> Covers(r[c], dataRanges[c]))
      && (c < |dataRanges| ==> r[c].lo in {ranges.value[c].lo, dataRanges[c].lo})
      && (c < |dataRanges| ==> r[c].hi in {ranges.value[c].hi, dataRanges[c].hi})
      && (c >= |dataRanges| ==> r[c] == ranges.value[c])
  {
    match ranges
    case None => dataRanges
    case Some(incoming) =>
      seq(|incoming|, c requires 0 <= c < |incoming| =>
        GrowRange(if c < |dataRanges| then Some(dataRanges[c]) else None, incoming[c]))
  }

  /** Building the same image again changes no data range. */
  lemma GrowDataRangesIdempotent(dataRanges: seq<Range>, ranges: Option<seq<Range>>)
    ensures GrowDataRanges(GrowDataRanges(dataRanges, ranges), ranges) == GrowDataRanges(dataRanges, ranges)
  {
  }

  /** Every data range of components up to `n` has a non-zero width. */
  predicate NonDegenerate(dataRanges: seq<Range>, n: nat) {
    forall c :: 0 <= c < |dataRanges| && c < n ==> Delta(dataRanges[c]) != 0.0
  }

  /**
   * The `normalizedColorRanges` updater of `builtImage`: one range per data
   * range; a component without a normalised range gets the default, one
   * with a range is rescaled so that its absolute colour range stays.
   */
  function RescaleNormalizedRanges(dataRanges: seq<Range>, normalized: seq<Range>, colors: seq<Range>): (r: seq<Range>)
    requires |normalized| <= |colors|
    requires NonDegenerate(dataRanges, |normalized|)
    ensures |r| == |dataRanges|
    ensures forall c :: |normalized| <= c < |r| ==> r[c] == NormalizedRangeDefault
    ensures forall c :: 0 <= c < |r| && c < |normalized| ==> ColorRange(dataRanges[c], r[c]) == colors[c]
  {
    seq(|dataRanges|, c requires 0 <= c < |dataRanges| =>
      if c >= |normalized| then NormalizedRangeDefault
      else NormalizedColorRange(dataRanges[c], colors[c]))
  }

  /** `updateColorRanges`: one absolute colour range per data range, from the normalised range of the same component. */
  function UpdateColorRanges(dataRanges: seq<Range>, normalized: seq<Range>): (r: seq<Range>)
    requires |dataRanges| <= |normalized|
    ensures |r| == |dataRanges|
    ensures forall c :: 0 <= c < |r| ==> r[c] == ColorRange(dataRanges[c], normalized[c])
  {
    seq(|dataRanges|, c requires 0 <= c < |dataRanges| => ColorRange(dataRanges[c], normalized[c]))
  }

  /** Overwriting one component's normalised range changes that component's colour range and no other. */
  lemma UpdateColorRangesLocal(dataRanges: seq<Range>, normalized: seq<Range>, c: nat, x: Range)
    requires |dataRanges| <= |normalized| && c < |dataRanges|
    ensures UpdateColorRanges(dataRanges, normalized[c := x])
         == UpdateColorRanges(dataRanges, normalized)[c := ColorRange(dataRanges[c], x)]
  {
  }

  /** Rescaling against unchanged data ranges gives back the normalised ranges the colour ranges came from. */
  lemma RescaleUnchangedData(dataRanges: seq<Range>, normalized: seq<Range>)
    requires |normalized| == |dataRanges|
    requires NonDegenerate(dataRanges, |normalized|)
    ensures RescaleNormalizedRanges(dataRanges, normalized, UpdateColorRanges(dataRanges, normalized)) == normalized
  {
    var colors := UpdateColorRanges(dataRanges, normalized);
    var r := RescaleNormalizedRanges(dataRanges, normalized, colors);
    forall c | 0 <= c < |r| ensures r[c] == normalized[c] {
      NormalizeColorRange(dataRanges[c], normalized[c]);
    }
  }
}
