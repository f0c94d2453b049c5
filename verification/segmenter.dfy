/**
 * The segmented gauge of `src/circle_segmenter.ts`, without the DOM: the
 * settings with their defaults, the layout `draw` computes (a full circle, or
 * one arc per segment with its start angle, end angle and fill state), the
 * arc sweep flag of `describeArc`, and `update`.
 *
 * Angles are exact reals in degrees; the SVG markup, the polar-to-cartesian
 * trigonometry and the `innerHTML` assignment are not modelled.
 */
module Segmenter {
  import opened JsValues

  /** The settings object passed to the constructor; each field may be absent or null. */
  datatype Settings = Settings(
    totalSegments: Nullable<int>,
    filledSegments: Nullable<real>,
    offset: Nullable<real>)

  const DefaultTotalSegments: int := 10
  const DefaultFilledSegments: real := 0.0
  const DefaultOffset: real := 0.0

  /** One arc of the gauge, in degrees clockwise from 12 o'clock. */
  datatype Segment = Segment(start: real, end: real, filled: bool)

  /** What `draw` renders: a single full circle, or a list of arcs. */
  datatype Layout = Circle(filled: bool) | Arcs(segs: seq<Segment>)

  /** An opaque reference to the target SVG element. */
  datatype SvgElement = SvgElement(ref: nat)

  /** The gauge: its element, its three settings and what was last drawn into it. */
  datatype Segmentor = Segmentor(
    svg: SvgElement,
    totalSegments: int,
    filledSegments: real,
    offset: real,
    rendered: Layout)

  // ---------------------------------------------------------------------
  // Layout
  // ---------------------------------------------------------------------

  /**
   * The arc length `len` of `draw`. The source takes `360 / total` when the
   * offset is 0 and `(360 - offset * total) / total` otherwise; either way
   * `len + offset` is one `total`-th of the full turn.
   */
  function SegmentLength(total: int, offset: real): (len: real)
    requires total > 0
    ensures (len + offset) * total as real == 360.0
  {
    if offset == 0.0 then 360.0 / total as real
    else (360.0 - offset * total as real) / total as real
  }

  /**
   * The loop of `draw` from iteration `i` on, with `prevEnd` the end angle of
   * the previous iteration: segment `i` starts `offset` after `prevEnd`, ends
   * at `len * i + offset * i`, and is filled when `filled >= i`.
   */
  function Sweep(total: int, filled: real, offset: real, len: real, i: int, prevEnd: real): (r: seq<Segment>)
    ensures |r| == if i <= total then total - i + 1 else 0
    ensures forall k :: 0 <= k < |r| ==> (r[k].filled <==> filled >= (i + k) as real)
    decreases total + 1 - i
  {
    if i > total then []
    else
      var start := prevEnd + offset;
      var end := len * i as real + offset * i as real;
      [Segment(start, end, filled >= i as real)] + Sweep(total, filled, offset, len, i + 1, end)
  }

  /**
   * `draw`: a lone full circle when the offset is 0 and there is one segment
   * (filled exactly when `filledSegments` is 1); otherwise one arc per
   * segment, the `i`-th (1-based) filled when `filledSegments >= i`. With no
   * positive segment count the loop never runs and nothing is drawn.
   */
  function Draw(total: int, filled: real, offset: real): (r: Layout)
    ensures offset == 0.0 && total == 1 ==> r == Circle(filled == 1.0)
    ensures !(offset == 0.0 && total == 1) ==>
              r.Arcs? && |r.segs| == (if total > 0 then total else 0)
    ensures r.Arcs? ==> forall k :: 0 <= k < |r.segs| ==> (r.segs[k].filled <==> filled >= (k + 1) as real)
  {
    if offset == 0.0 && total == 1 then Circle(filled == 1.0)
    else if total <= 0 then Arcs([])  // the source's `len` is Infinity for 0 segments and a negative number for fewer; the loop never reads it
    else Arcs(Sweep(total, filled, offset, SegmentLength(total, offset), 1, 0.0))
  }

  /** `describeArc`'s large-arc flag: "0" for arcs of at most half a turn, "1" beyond. */
  function ArcSweep(startAngle: real, endAngle: real): (flag: string)
    ensures flag == "1" <==> endAngle - startAngle > 180.0
    ensures flag == "0" || flag == "1"
  {
    if endAngle - startAngle <= 180.0 then "0" else "1"
  }

  // ---------------------------------------------------------------------
  // The gauge object
  // ---------------------------------------------------------------------

  /** The constructor: fill in the missing settings, then draw. */
  function NewSegmentor(svg: SvgElement, settings: Settings): (g: Segmentor)
    ensures g.svg == svg
    ensures settings.totalSegments.Given? ==> g.totalSegments == settings.totalSegments.value
    ensures !settings.totalSegments.Given? ==> g.totalSegments == 10
    ensures settings.filledSegments.Given? ==> g.filledSegments == settings.filledSegments.value
    ensures !settings.filledSegments.Given? ==> g.filledSegments == 0.0
    ensures settings.offset.Given? ==> g.offset == settings.offset.value
    ensures !settings.offset.Given? ==> g.offset == 0.0
    ensures Drawn(g)
  {
    var total := settings.totalSegments.Coalesce(DefaultTotalSegments);
    var filled := settings.filledSegments.Coalesce(DefaultFilledSegments);
    var offset := settings.offset.Coalesce(DefaultOffset);
    Segmentor(svg, total, filled, offset, Draw(total, filled, offset))
  }

  /** The gauge shows the layout of its current settings. */
  predicate Drawn(g: Segmentor)
  {
    g.rendered == Draw(g.totalSegments, g.filledSegments, g.offset)
  }

  /** `update`: replace all three settings and redraw into the same element. */
  function Update(g: Segmentor, total: int, filled: real, offset: real): (r: Segmentor)
    ensures r.svg == g.svg
    ensures r.totalSegments == total && r.filledSegments == filled && r.offset == offset
    ensures Drawn(r)
  {
    Segmentor(g.svg, total, filled, offset, Draw(total, filled, offset))
  }

  // ---------------------------------------------------------------------
  // Properties of the layout
  // ---------------------------------------------------------------------

  /**
   * The angles the loop produces in closed form: the `k`-th arc (0-based)
   * ends at `(len + offset) * (i + k)` and starts `offset` after the previous
   * end (after `prevEnd` for the first).
   */
  lemma {:induction false} SweepAngles(total: int, filled: real, offset: real, len: real, i: int, prevEnd: real)
    ensures forall k :: 0 <= k < |Sweep(total, filled, offset, len, i, prevEnd)| ==>
              Sweep(total, filled, offset, len, i, prevEnd)[k].end == (len + offset) * (i + k) as real
    ensures forall k :: 0 <= k < |Sweep(total, filled, offset, len, i, prevEnd)| ==>
              Sweep(total, filled, offset, len, i, prevEnd)[k].start
              == (if k == 0 then prevEnd else (len + offset) * (i + k - 1) as real) + offset
    decreases total + 1 - i
  {
    if i <= total {
      var r := Sweep(total, filled, offset, len, i, prevEnd);
      var end := len * i as real + offset * i as real;
      var rest := Sweep(total, filled, offset, len, i + 1, end);
      SweepAngles(total, filled, offset, len, i + 1, end);
      assert r == [Segment(prevEnd + offset, end, filled >= i as real)] + rest;
      forall k | 0 <= k < |r|
        ensures r[k].end == (len + offset) * (i + k) as real
        ensures r[k].start == (if k == 0 then prevEnd else (len + offset) * (i + k - 1) as real) + offset
      {
        if k == 0 {
          assert r[0].end == end;
          assert len * i as real + offset * i as real == (len + offset) * i as real;
        } else {
          assert r[k] == rest[k - 1];
          assert (i + 1) + (k - 1) == i + k;
          if k > 1 {
            assert (i + 1) + (k - 1) - 1 == i + k - 1;
          }
        }
      }
    }
  }

  /**
   * The telescoping identity: arc `k` (0-based) of `n` runs from
   * `360 * k / n + offset` to `360 * (k + 1) / n`, so the first starts at the
   * offset, the last ends at 360, and each spans `360 / n - offset`.
   */
  lemma SegmentAngles(total: int, filled: real, offset: real)
    requires total >= 1 && !(offset == 0.0 && total == 1)
    ensures |Draw(total, filled, offset).segs| == total
    ensures forall k :: 0 <= k < total ==>
              Draw(total, filled, offset).segs[k].end == 360.0 * (k + 1) as real / total as real
    ensures forall k :: 0 <= k < total ==>
              Draw(total, filled, offset).segs[k].start == 360.0 * k as real / total as real + offset
    ensures forall k :: 0 <= k < total ==>
              Draw(total, filled, offset).segs[k].end - Draw(total, filled, offset).segs[k].start
              == 360.0 / total as real - offset
  {
    var len := SegmentLength(total, offset);
    var segs := Draw(total, filled, offset).segs;
    assert segs == Sweep(total, filled, offset, len, 1, 0.0);
    forall k | 0 <= k < total
      ensures segs[k].end == 360.0 * (k + 1) as real / total as real
      ensures segs[k].start == 360.0 * k as real / total as real + offset
      ensures segs[k].end - segs[k].start == 360.0 / total as real - offset
    {
      ArcAngles(total, filled, offset, len, k);
    }
  }

  /** One arc of the loop, for any `len` that makes `len + offset` one `total`-th of the turn. */
  lemma ArcAngles(total: int, filled: real, offset: real, len: real, k: nat)
    requires k < total && (len + offset) * total as real == 360.0
    ensures |Sweep(total, filled, offset, len, 1, 0.0)| == total
    ensures Sweep(total, filled, offset, len, 1, 0.0)[k].end == 360.0 * (k + 1) as real / total as real
    ensures Sweep(total, filled, offset, len, 1, 0.0)[k].start == 360.0 * k as real / total as real + offset
    ensures Sweep(total, filled, offset, len, 1, 0.0)[k].end - Sweep(total, filled, offset, len, 1, 0.0)[k].start
            == 360.0 / total as real - offset
  {
    var pitch := len + offset;
    var segs := Sweep(total, filled, offset, len, 1, 0.0);
    SweepAngles(total, filled, offset, len, 1, 0.0);
    var start, end := segs[k].start, segs[k].end;
    assert && end == 360.0 * (k + 1) as real / total as real
           && start == 360.0 * k as real / total as real + offset
           && end - start == 360.0 / total as real - offset by {
      ArcInClosedForm(total as real, pitch, offset, k, start, end);
    }
  }

  /** The arcs cover the turn from the offset to 360 degrees. */
  lemma ArcsSpanFullTurn(total: int, filled: real, offset: real)
    requires total >= 1 && !(offset == 0.0 && total == 1)
    ensures |Draw(total, filled, offset).segs| == total
    ensures Draw(total, filled, offset).segs[0].start == offset
    ensures Draw(total, filled, offset).segs[total - 1].end == 360.0
  {
    var len := SegmentLength(total, offset);
    var segs := Draw(total, filled, offset).segs;
    assert segs == Sweep(total, filled, offset, len, 1, 0.0);
    SweepAngles(total, filled, offset, len, 1, 0.0);
    assert segs[total - 1].end == (len + offset) * (1 + (total - 1)) as real;
    assert (1 + (total - 1)) as real == total as real;
  }

  /** One arc of the loop's closed form, restated in degrees of the full turn. */
  lemma ArcInClosedForm(n: real, pitch: real, offset: real, k: nat, start: real, end: real)
    requires n > 0.0 && pitch * n == 360.0
    requires end == pitch * (1 + k) as real
    requires start == (if k == 0 then 0.0 else pitch * (1 + k - 1) as real) + offset
    ensures end == 360.0 * (k + 1) as real / n
    ensures start == 360.0 * k as real / n + offset
    ensures end - start == 360.0 / n - offset
  {
  }

  /** How many arcs are filled: `filledSegments` rounded down, clamped to `[0, total]`. */
  function FilledCount(total: int, filled: real): (c: int)
  {
    if filled.Floor < 0 then 0
    else if filled.Floor > total then (if total > 0 then total else 0)
    else filled.Floor
  }

  /** The filled arcs are exactly a prefix, of length `FilledCount`. */
  lemma FilledPrefix(total: int, filled: real, offset: real)
    requires !(offset == 0.0 && total == 1)
    ensures var segs := Draw(total, filled, offset).segs;
            forall k :: 0 <= k < |segs| ==> (segs[k].filled <==> k < FilledCount(total, filled))
  {
    var segs := Draw(total, filled, offset).segs;
    forall k | 0 <= k < |segs|
      ensures segs[k].filled <==> k < FilledCount(total, filled)
    {
      assert segs[k].filled <==> filled >= (k + 1) as real;
      assert filled >= (k + 1) as real <==> filled.Floor >= k + 1;
    }
  }

  /**
   * The sweep flag of every arc: all arcs get "1" exactly when one arc spans
   * more than half a turn. With two or more segments and a non-negative
   * offset every flag is "0"; a lone arc with an offset gets "1" exactly when
   * the offset is below 180 degrees.
   */
  lemma SweepFlags(total: int, filled: real, offset: real)
    requires total >= 1 && !(offset == 0.0 && total == 1)
    ensures var segs := Draw(total, filled, offset).segs;
            forall k :: 0 <= k < |segs| ==>
              (ArcSweep(segs[k].start, segs[k].end) == "1" <==> 360.0 / total as real - offset > 180.0)
    ensures total >= 2 && offset >= 0.0 ==>
              forall s :: s in Draw(total, filled, offset).segs ==> ArcSweep(s.start, s.end) == "0"
    ensures total == 1 ==>
              (ArcSweep(Draw(total, filled, offset).segs[0].start, Draw(total, filled, offset).segs[0].end) == "1"
               <==> offset < 180.0)
  {
    SegmentAngles(total, filled, offset);
    if total >= 2 {
      assert 360.0 / total as real <= 180.0;
    }
  }

  /**
   * `update` forgets the previous settings and layout: the result is what the
   * constructor builds from the same element and the three new values.
   */
  lemma UpdateIsFreshConstruction(g: Segmentor, total: int, filled: real, offset: real)
    ensures Update(g, total, filled, offset)
            == NewSegmentor(g.svg, Settings(Given(total), Given(filled), Given(offset)))
  {
  }

  /** The constructor's defaults replace only absent or null settings; a supplied 0 is kept. */
  lemma DefaultsKeepZero(svg: SvgElement)
    ensures NewSegmentor(svg, Settings(Missing, Null, Missing))
            == Segmentor(svg, 10, 0.0, 0.0, Draw(10, 0.0, 0.0))
    ensures NewSegmentor(svg, Settings(Given(0), Given(0.0), Given(0.0))).totalSegments == 0
    ensures NewSegmentor(svg, Settings(Given(0), Given(0.0), Given(0.0))).rendered == Arcs([])
  {
  }

  /**
   * The lone circle reads `filledSegments` differently from the arc rule:
   * with one segment and `filledSegments` 2 the circle is not filled, though
   * a lone arc (non-zero offset) under the same count is.
   */
  lemma CircleFillIsExact()
    ensures Draw(1, 2.0, 0.0) == Circle(false)
    ensures Draw(1, 2.0, 1.0).segs[0].filled
  {
  }
}
