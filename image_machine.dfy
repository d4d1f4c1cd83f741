/**
 * The context of the image actor and its two events: `builtImage`, which
 * grows the data ranges and rescales the normalised colour ranges, and
 * `normalizedColorRange`, which overwrites one component's normalised
 * range in place. Both end with `updateColorRanges`.
 */
module ImageMachine {
  import opened Wrappers
  import opened ColorRanges

  class ImageContext {
    var dataRanges: seq<Range>
    var colorRanges: seq<Range>
    var normalizedColorRanges: array<Range>

    /** One range of each kind per component, and every colour range is the one its normalised range stands for. */
    ghost predicate Valid()
      reads this, normalizedColorRanges
    {
      && |dataRanges| == |colorRanges| == normalizedColorRanges.Length
      && colorRanges == UpdateColorRanges(dataRanges, normalizedColorRanges[..])
    }

    /** The initial context: no components yet. */
    constructor ()
      ensures Valid() && fresh(normalizedColorRanges)
      ensures dataRanges == [] && colorRanges == [] && normalizedColorRanges.Length == 0
    {
      dataRanges := [];
      colorRanges := [];
      normalizedColorRanges := new Range[0];
    }

    /**
     * `builtImage`: grow the data ranges by the image's ranges, if it has
     * any; give each component a fresh array slot holding the default or
     * the rescaled normalised range; then recompute the colour ranges.
     */
    method OnBuiltImage(ranges: Option<seq<Range>>)
      requires Valid()
      requires NonDegenerate(GrowDataRanges(dataRanges, ranges), normalizedColorRanges.Length)
      modifies this
      ensures Valid() && fresh(normalizedColorRanges)
      ensures dataRanges == GrowDataRanges(old(dataRanges), ranges)
      ensures normalizedColorRanges[..]
           == RescaleNormalizedRanges(dataRanges, old(normalizedColorRanges[..]), old(colorRanges))
      ensures forall c :: 0 <= c < |colorRanges| && c < |old(colorRanges)| ==> colorRanges[c] == old(colorRanges)[c]
      ensures forall c :: |old(colorRanges)| <= c < |colorRanges| ==>
        normalizedColorRanges[c] == NormalizedRangeDefault
        && colorRanges[c] == ColorRange(dataRanges[c], NormalizedRangeDefault)
      ensures ranges.None? ==>
        normalizedColorRanges[..] == old(normalizedColorRanges[..]) && colorRanges == old(colorRanges)
    {
      ghost var normalized0 := normalizedColorRanges[..];
      dataRanges := GrowDataRanges(dataRanges, ranges);
      var rescaled := RescaleNormalizedRanges(dataRanges, normalizedColorRanges[..], colorRanges);
      if ranges.None? {
        RescaleUnchangedData(dataRanges, normalized0);
      }
      normalizedColorRanges := new Range[|rescaled|](c requires 0 <= c < |rescaled| => rescaled[c]);
      assert normalizedColorRanges[..] == rescaled;
      colorRanges := UpdateColorRanges(dataRanges, normalizedColorRanges[..]);
    }

    /** `normalizedColorRange`: overwrite the normalised range of one component in place, then recompute the colour ranges. */
    method OnNormalizedColorRange(range: Range, component: nat)
      requires Valid()
      requires component < |dataRanges|
      modifies this, normalizedColorRanges
      ensures Valid() && normalizedColorRanges == old(normalizedColorRanges)
      ensures normalizedColorRanges[..] == old(normalizedColorRanges[..])[component := range]
      ensures dataRanges == old(dataRanges)
      ensures colorRanges == old(colorRanges)[component := ColorRange(dataRanges[component], range)]
    {
      normalizedColorRanges[component] := range;
      colorRanges := UpdateColorRanges(dataRanges, normalizedColorRanges[..]);
    }
  }

  /** A first image gives its component the default normalised range. */
  method FirstImageScenario()
  {
    var m := new ImageContext();
    m.OnBuiltImage(Some([Range(0.0, 100.0)]));
    assert m.dataRanges == [Range(0.0, 100.0)];
    assert m.normalizedColorRanges[..] == [NormalizedRangeDefault];
    assert m.colorRanges[0] == ColorRange(Range(0.0, 100.0), NormalizedRangeDefault) == Range(20.0, 80.0);
  }

  /** A wider image rescales the normalised range without moving the colour range. */
  method WideningScenario(m: ImageContext)
    requires m.Valid() && m.dataRanges == [Range(0.0, 100.0)] && m.colorRanges == [Range(20.0, 80.0)]
    modifies m
  {
    ghost var grown := GrowDataRanges(m.dataRanges, Some([Range(-100.0, 50.0)]));
    assert grown[0].lo == -100.0 && grown[0].hi == 100.0;
    assert grown == [Range(-100.0, 100.0)];
    assert NonDegenerate(grown, m.normalizedColorRanges.Length);
    m.OnBuiltImage(Some([Range(-100.0, 50.0)]));
    assert m.dataRanges == [Range(-100.0, 100.0)];
    assert m.colorRanges[0] == Range(20.0, 80.0);
  }

  /** An explicit normalised range of [0, 1] makes the colour range span the data range. */
  method FullSpanScenario(m: ImageContext)
    requires m.Valid() && m.dataRanges == [Range(-100.0, 100.0)]
    modifies m, m.normalizedColorRanges
  {
    m.OnNormalizedColorRange(Range(0.0, 1.0), 0);
    assert m.colorRanges[0] == ColorRange(Range(-100.0, 100.0), Range(0.0, 1.0)) == Range(-100.0, 100.0);
    assert m.colorRanges == [Range(-100.0, 100.0)];
  }
}
