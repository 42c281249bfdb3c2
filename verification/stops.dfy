/** Stop normalisation of a linear gradient: the declared `<stop>` children,
    in document order, become gradient colour stops, and the list is padded
    with synthetic boundary stops at offsets 0 and 1 when the declared ones
    do not reach them (SVG 1.1 section 13.2.4). Nothing is sorted, clamped or
    removed. */
module Stops {

  /** A `<stop>` child as its renderer reports it: a colour and an offset. */
  datatype StopNode = StopNode(color: seq<real>, offset: real)

  /** A gradient colour stop with a relative offset. */
  datatype ColorStop = ColorStop(color: seq<real>, offset: real)

  function ToColorStop(n: StopNode): ColorStop {
    ColorStop(n.color, n.offset)
  }

  /** The declared stops, one per child, in document order: the list the
      loop of `ParseStops` builds before any padding. */
  function Declared(nodes: seq<StopNode>): (r: seq<ColorStop>)
    ensures |r| == |nodes|
    ensures forall i :: 0 <= i < |nodes| ==> r[i] == ColorStop(nodes[i].color, nodes[i].offset)
  {
    seq(|nodes|, i requires 0 <= i < |nodes| => ToColorStop(nodes[i]))
  }

  /** Whether a synthetic stop at offset 0 is put in front of `s`. */
  predicate NeedsLeadingStop(s: seq<ColorStop>) {
    |s| > 0 && s[0].offset > 0.0
  }

  /** Whether a synthetic stop at offset 1 is put after `s`. */
  predicate NeedsTrailingStop(s: seq<ColorStop>) {
    |s| > 0 && s[|s| - 1].offset < 1.0
  }

  /** The boundary padding of a declared stop list.  The trailing test reads
      the last stop of the list as it stands after the leading stop has been
      added; for a non-empty list that is still the last declared stop. */
  function PadBoundaries(s: seq<ColorStop>): (r: seq<ColorStop>)
    ensures |s| == 0 <==> |r| == 0
    ensures |s| <= |r| <= |s| + 2
    ensures var lead := if NeedsLeadingStop(s) then 1 else 0;
            var trail := if NeedsTrailingStop(s) then 1 else 0;
            && |r| == lead + |s| + trail
            && r[lead..lead + |s|] == s
            && (NeedsLeadingStop(s) ==> r[0] == ColorStop(s[0].color, 0.0))
            && (NeedsTrailingStop(s) ==> r[|r| - 1] == ColorStop(s[|s| - 1].color, 1.0))
  {
    if |s| == 0 then []
    else
      var first := s[0];
      var withLead := if first.offset > 0.0 then [ColorStop(first.color, 0.0)] + s else s;
      var last := withLead[|withLead| - 1];
      if last.offset < 1.0 then withLead + [ColorStop(last.color, 1.0)] else withLead
  }

  /** `ParseStops`: convert every child in order, then pad the boundaries.
      The parent opacity is accepted and ignored: stop opacity is not
      supported by the renderer. */
  method ParseStops(nodes: seq<StopNode>, parentOpacity: real) returns (stops: seq<ColorStop>)
    ensures |nodes| == 0 <==> stops == []
    ensures stops == PadBoundaries(Declared(nodes))
    ensures |nodes| > 0 ==>
      var lead := if nodes[0].offset > 0.0 then 1 else 0;
      && lead + |nodes| <= |stops|
      && forall i :: 0 <= i < |nodes| ==> stops[lead + i] == ColorStop(nodes[i].color, nodes[i].offset)
  {
    var list: seq<ColorStop> := [];
    var i := 0;
    while i < |nodes|
      invariant 0 <= i <= |nodes|
      invariant list == Declared(nodes[..i])
    {
      list := list + [ToColorStop(nodes[i])];
      i := i + 1;
    }
    assert nodes[..i] == nodes;
    if list != [] {
      var first := list[0];
      if first.offset > 0.0 {
        list := [ColorStop(first.color, 0.0)] + list;
      }
      var last := list[|list| - 1];
      if last.offset < 1.0 {
        list := list + [ColorStop(last.color, 1.0)];
      }
    }
    stops := list;
  }

  /** Every list the padding produces starts at or below 0 and ends at or
      above 1, whatever the declared offsets were. */
  lemma PaddedEndsReachBoundaries(s: seq<ColorStop>)
    requires |s| > 0
    ensures var r := PadBoundaries(s); r[0].offset <= 0.0 && r[|r| - 1].offset >= 1.0
  {
  }

  /** With every declared offset in [0, 1] the padded list runs exactly from
      offset 0 to offset 1. */
  lemma PaddedEndsAreZeroAndOne(s: seq<ColorStop>)
    requires |s| > 0
    requires forall i :: 0 <= i < |s| ==> 0.0 <= s[i].offset <= 1.0
    ensures var r := PadBoundaries(s); r[0].offset == 0.0 && r[|r| - 1].offset == 1.0
  {
    PaddedEndsReachBoundaries(s);
    var r := PadBoundaries(s);
    if !NeedsLeadingStop(s) {
      assert r[0] == s[0];
    }
    if !NeedsTrailingStop(s) {
      var lead := if NeedsLeadingStop(s) then 1 else 0;
      assert r[|r| - 1] == r[lead..lead + |s|][|s| - 1] == s[|s| - 1];
    }
  }

  /** Padding an already padded list changes nothing. */
  lemma PadBoundariesIdempotent(s: seq<ColorStop>)
    ensures PadBoundaries(PadBoundaries(s)) == PadBoundaries(s)
  {
    if |s| > 0 {
      PaddedEndsReachBoundaries(s);
    }
  }
}
