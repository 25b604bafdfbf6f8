/**
  Selectable regions under overlays (`subtractSelectionCoverage` and its use in
  `compositeOverlays`): an overlay takes its cells away from whatever lies below it, then adds its
  own selectable span.
*/
module SelectionRegions {
  import opened Basics

  /** The cells of columns [col, col + width) on one line. */
  datatype Region = Region(line: int, col: int, width: int)

  /** One composited overlay line: `w` columns from `col`, with its selectable span if it takes focus. */
  datatype OverlayRow = OverlayRow(line: int, col: int, w: nat, span: Option<(int, int)>)

  ghost predicate Holds(r: Region, line: int, c: int) {
    r.line == line && r.col <= c < r.col + r.width
  }

  ghost predicate Covers(regions: seq<Region>, line: int, c: int) {
    exists i :: 0 <= i < |regions| && Holds(regions[i], line, c)
  }

  ghost predicate Disjoint(regions: seq<Region>) {
    forall i, j, line, c :: 0 <= i < j < |regions| && Holds(regions[i], line, c) ==> !Holds(regions[j], line, c)
  }

  /** What is left of one region: nothing changes unless the cover meets it, else the ends that stick out. */
  function Cut(r: Region, line: int, coverStart: int, coverEnd: int): seq<Region> {
    if r.line != line || coverEnd <= r.col || coverStart >= r.col + r.width then
      [r]
    else
      (if r.col < coverStart then [Region(line, r.col, coverStart - r.col)] else [])
      + (if coverEnd < r.col + r.width then [Region(line, coverEnd, r.col + r.width - coverEnd)] else [])
  }

  function Subtract(regions: seq<Region>, line: int, coverStart: int, coverEnd: int): seq<Region> {
    if regions == [] then []
      else Cut(regions[0], line, coverStart, coverEnd) + Subtract(regions[1..], line, coverStart, coverEnd)
  }

  lemma CoversConcat(a: seq<Region>, b: seq<Region>, line: int, c: int)
    ensures Covers(a + b, line, c) <==> Covers(a, line, c) || Covers(b, line, c)
  {
    if i :| 0 <= i < |a| && Holds(a[i], line, c) {
      assert Holds((a + b)[i], line, c);
    }
    if i :| 0 <= i < |b| && Holds(b[i], line, c) {
      assert Holds((a + b)[|a| + i], line, c);
    }
  }

  /** Subtraction removes exactly the covered cells. */
  lemma {:induction false} SubtractCells(regions: seq<Region>, line: int, coverStart: int, coverEnd: int, l: int,
      c: int)
    requires coverStart <= coverEnd
    ensures Covers(Subtract(regions, line, coverStart, coverEnd), l, c)
            <==> Covers(regions, l, c) && !(l == line && coverStart <= c < coverEnd)
  {
    if regions != [] {
      var r, cut, rest := regions[0], Cut(regions[0], line, coverStart, coverEnd), regions[1..];
      SubtractCells(rest, line, coverStart, coverEnd, l, c);
      CoversConcat(cut, Subtract(rest, line, coverStart, coverEnd), l, c);
      CoversConcat([r], rest, l, c);
      assert [r] + rest == regions;
      CutCells(r, line, coverStart, coverEnd, l, c);
    }
  }

  lemma CutCells(r: Region, line: int, coverStart: int, coverEnd: int, l: int, c: int)
    requires coverStart <= coverEnd
    ensures Covers(Cut(r, line, coverStart, coverEnd), l, c)
            <==> Holds(r, l, c) && !(l == line && coverStart <= c < coverEnd)
    ensures Covers([r], l, c) <==> Holds(r, l, c)
    ensures Disjoint(Cut(r, line, coverStart, coverEnd))
  {
    var cut := Cut(r, line, coverStart, coverEnd);
    assert Holds([r][0], l, c) <==> Holds(r, l, c);
    if Holds(r, l, c) && !(l == line && coverStart <= c < coverEnd) {
      assert Holds(cut[0], l, c) || Holds(cut[|cut| - 1], l, c);
    }
  }

  lemma DisjointConcat(a: seq<Region>, b: seq<Region>)
    ensures Disjoint(a + b) <==> Disjoint(a) && Disjoint(b) && forall l, c :: !(Covers(a, l, c) && Covers(b, l, c))
  {
    var ab := a + b;
    if Disjoint(ab) {
      forall i, j, l, c | 0 <= i < j < |a| && Holds(a[i], l, c)
        ensures !Holds(a[j], l, c)
      {
        assert Holds(ab[i], l, c);
        assert ab[j] == a[j];
      }
      forall i, j, l, c | 0 <= i < j < |b| && Holds(b[i], l, c)
        ensures !Holds(b[j], l, c)
      {
        assert Holds(ab[|a| + i], l, c);
        assert ab[|a| + j] == b[j];
      }
      forall l, c, i, j | 0 <= i < |a| && 0 <= j < |b| && Holds(a[i], l, c)
        ensures !Holds(b[j], l, c)
      {
        assert Holds(ab[i], l, c);
        assert ab[|a| + j] == b[j];
      }
    }
    if Disjoint(a) && Disjoint(b) && forall l, c :: !(Covers(a, l, c) && Covers(b, l, c)) {
      forall i, j, l, c | 0 <= i < j < |ab| && Holds(ab[i], l, c)
        ensures !Holds(ab[j], l, c)
      {
        if i < |a| <= j && Holds(ab[j], l, c) {
          assert Holds(b[j - |a|], l, c);
          assert Covers(a, l, c) && Covers(b, l, c);
        }
      }
    }
  }

  /** Regions that do not overlap still do not after a subtraction. */
  lemma {:induction false} SubtractDisjoint(regions: seq<Region>, line: int, coverStart: int, coverEnd: int)
    requires coverStart <= coverEnd && Disjoint(regions)
    ensures Disjoint(Subtract(regions, line, coverStart, coverEnd))
  {
    if regions != [] {
      var r, rest := regions[0], regions[1..];
      var cut, left := Cut(r, line, coverStart, coverEnd), Subtract(rest, line, coverStart, coverEnd);
      assert [r] + rest == regions;
      DisjointConcat([r], rest);
      SubtractDisjoint(rest, line, coverStart, coverEnd);
      CutCells(r, line, coverStart, coverEnd, 0, 0);
      forall l, c
        ensures !(Covers(cut, l, c) && Covers(left, l, c))
      {
        CutCells(r, line, coverStart, coverEnd, l, c);
        SubtractCells(rest, line, coverStart, coverEnd, l, c);
        assert !(Covers([r], l, c) && Covers(rest, l, c));
      }
      DisjointConcat(cut, left);
    }
  }

  lemma SubtractFirst(regions: seq<Region>, i: nat, line: int, coverStart: int, coverEnd: int)
    requires i < |regions|
    ensures Subtract(regions[i..], line, coverStart, coverEnd)
            == Cut(regions[i], line, coverStart, coverEnd) + Subtract(regions[i + 1..], line, coverStart, coverEnd)
  {
    assert regions[i..][0] == regions[i] && regions[i..][1..] == regions[i + 1..];
  }

  /** The entry at the end of the unvisited part, and what lies on either side of it. */
  lemma SplicedAt(before: seq<Region>, i: nat, tail: seq<Region>)
    requires i < |before|
    ensures var now := before[..i + 1] + tail;
            now[i] == before[i] && now[..i] == before[..i] && now[i + 1..] == tail
              && now == before[..i] + ([before[i]] + tail)
  {
  }

  lemma SubtractNone(line: int, coverStart: int, coverEnd: int)
    ensures Subtract([], line, coverStart, coverEnd) == []
  {
  }

  /** The overlay's own selectable cells. */
  ghost predicate InSpan(o: OverlayRow, line: int, c: int) {
    o.span.Some? && o.line == line && o.col + o.span.value.0 <= c < o.col + o.span.value.1
  }

  ghost predicate UnderRow(o: OverlayRow, line: int, c: int) {
    o.line == line && o.col <= c < o.col + o.w
  }

  ghost predicate SpanFits(o: OverlayRow) {
    o.span.Some? ==> 0 <= o.span.value.0 <= o.span.value.1 <= o.w
  }

  /** A cell is selectable through the topmost overlay row over it, or through the frame when there is none. */
  ghost predicate Selectable(base: seq<Region>, overlays: seq<OverlayRow>, line: int, c: int) {
    if overlays == [] then Covers(base, line, c)
    else
      var top := overlays[|overlays| - 1];
      if UnderRow(top, line, c) then InSpan(top, line, c) else Selectable(base, overlays[..|overlays| - 1], line, c)
  }

  class OverlaySelection {
    var regions: seq<Region>

    constructor (regions: seq<Region>)
      ensures this.regions == regions
    {
      this.regions := regions;
    }

    /** The ends of a region the cover meets that stick out of it. */
    static method Replacements(region: Region, coverStart: int, coverEnd: int) returns (replacements: seq<Region>)
      requires region.col < coverEnd && coverStart < region.col + region.width
      ensures replacements == Cut(region, region.line, coverStart, coverEnd)
    {
      replacements := [];
      if region.col < coverStart {
        replacements := replacements + [Region(region.line, region.col, coverStart - region.col)];
      }
      if coverEnd < region.col + region.width {
        replacements := replacements + [Region(region.line, coverEnd, region.col + region.width - coverEnd)];
      }
    }

    /** The array is spliced in place from its end, so the entries still to visit keep their index. */
    method SubtractSelectionCoverage(line: int, coverStart: int, coverEnd: int)
      modifies this
      ensures regions == Subtract(old(regions), line, coverStart, coverEnd)
    {
      hide Subtract;
      ghost var before := regions;
      SubtractNone(line, coverStart, coverEnd);
      ghost var tail: seq<Region> := [];
      var i := |regions| - 1;
      while i >= 0
        invariant -1 <= i < |before|
        invariant regions == before[..i + 1] + tail
        invariant tail == Subtract(before[i + 1..], line, coverStart, coverEnd)
      {
        var region := regions[i];
        SubtractFirst(before, i, line, coverStart, coverEnd);
        SplicedAt(before, i, tail);
        var regionStart, regionEnd := region.col, region.col + region.width;
        if region.line == line && !(coverEnd <= regionStart || coverStart >= regionEnd) {
          var replacements := Replacements(region, coverStart, coverEnd);
          regions := regions[..i] + replacements + regions[i + 1..];
          Regroup(before[..i], replacements, tail);
          tail := replacements + tail;
        } else {
          tail := [region] + tail;
        }
        i := i - 1;
      }
      assert before[0..] == before;
    }

    /** Compositing a stack of overlay rows, lowest first. */
    method CompositeOverlays(overlays: seq<OverlayRow>)
      requires Disjoint(regions) && forall o :: o in overlays ==> SpanFits(o)
      modifies this
      ensures Disjoint(regions)
      ensures forall line, c :: Covers(regions, line, c) <==> Selectable(old(regions), overlays, line, c)
    {
      for i := 0 to |overlays|
        invariant Disjoint(regions)
        invariant forall line, c :: Covers(regions, line, c) <==> Selectable(old(regions), overlays[..i], line, c)
      {
        var o := overlays[i];
        assert SpanFits(o);
        ghost var before := regions;
        SubtractSelectionCoverage(o.line, o.col, o.col + o.w);
        if o.span.Some? {
          regions := regions + [Region(o.line, o.col + o.span.value.0, o.span.value.1 - o.span.value.0)];
        }
        Composited(before, o);
        assert regions == Subtract(before, o.line, o.col, o.col + o.w) + Added(o);
        assert overlays[..i + 1][..i] == overlays[..i];
        assert forall line, c ::
            Selectable(old(regions), overlays[..i + 1], line, c)
            == (if UnderRow(o, line, c) then InSpan(o, line, c) else Selectable(old(regions), overlays[..i], line, c));
      }
      assert overlays[..|overlays|] == overlays;
    }
  }

  /** The region an overlay row adds. */
  function Added(o: OverlayRow): seq<Region> {
    if o.span.Some? then [Region(o.line, o.col + o.span.value.0, o.span.value.1 - o.span.value.0)] else []
  }

  lemma CompositedCell(before: seq<Region>, o: OverlayRow, line: int, c: int)
    requires SpanFits(o)
    ensures var left := Subtract(before, o.line, o.col, o.col + o.w);
            && (Covers(left + Added(o), line, c)
               <==> if UnderRow(o, line, c) then InSpan(o, line, c) else Covers(before, line, c))
            && !(Covers(left, line, c) && Covers(Added(o), line, c))
  {
    SubtractCells(before, o.line, o.col, o.col + o.w, line, c);
    CoversConcat(Subtract(before, o.line, o.col, o.col + o.w), Added(o), line, c);
    if o.span.Some? {
      assert Covers(Added(o), line, c) <==> Holds(Added(o)[0], line, c);
    }
  }

  /** One overlay row on top: its span inside it, the old regions outside it. */
  lemma Composited(before: seq<Region>, o: OverlayRow)
    requires Disjoint(before) && SpanFits(o)
    ensures var after := Subtract(before, o.line, o.col, o.col + o.w) + Added(o);
            && Disjoint(after)
            && forall line, c ::
                 Covers(after, line, c)
                 <==> if UnderRow(o, line, c) then InSpan(o, line, c) else Covers(before, line, c)
  {
    var left := Subtract(before, o.line, o.col, o.col + o.w);
    SubtractDisjoint(before, o.line, o.col, o.col + o.w);
    assert Disjoint(Added(o));
    forall line, c
      ensures Covers(left + Added(o), line, c)
              <==> if UnderRow(o, line, c) then InSpan(o, line, c) else Covers(before, line, c)
      ensures !(Covers(left, line, c) && Covers(Added(o), line, c))
    {
      CompositedCell(before, o, line, c);
    }
    DisjointConcat(left, Added(o));
  }
}
