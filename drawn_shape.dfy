/**
 * DrawnShape: two lines that take turns drawing segments between random
 * vertices of an icosahedron. Each segment starts where the previous one
 * ended, the colour turns 5 degrees further from #00CCFF with every
 * segment, and every drawLine schedules the next one.
 */
module DrawnShape {
  import opened Colors
  import opened Scene
  import JsMath

  const Origin := Vec3(0.0, 0.0, 0.0)

  /** What changeLine is given: the segment's two ends and its colour. */
  datatype Segment = Segment(start: Vec3, end: Vec3, hue: Hue)

  /** The colour of the k-th segment drawn (counting from 1): #00CCFF turned 5k degrees. */
  function SegmentHue(k: nat): Hue {
    Spin(Cyan, 5.0 * k as real)
  }

  /** Each segment's colour is the previous one's turned a further 5 degrees. */
  lemma SegmentHueStep(k: nat)
    ensures SegmentHue(k + 1) == Spin(SegmentHue(k), 5.0)
  {
    SpinCompose(Cyan, 5.0 * k as real, 5.0);
  }

  /** A path of segments, each starting where the one before ended, the first at the origin. */
  ghost predicate Chained(segments: seq<Segment>) {
    && (segments != [] ==> segments[0].start == Origin)
    && (forall i :: 0 < i < |segments| ==> segments[i].start == segments[i - 1].end)
  }

  /** A chained path whose every segment ends at a vertex and whose k-th segment has colour SegmentHue(k). */
  ghost predicate Path(segments: seq<Segment>, vertices: seq<Vec3>) {
    && Chained(segments)
    && (forall i :: 0 <= i < |segments| ==> segments[i].end in vertices && segments[i].hue == SegmentHue(i + 1))
  }

  /** The end of a path: the origin for an empty one. */
  function PathEnd(segments: seq<Segment>): Vec3 {
    if segments == [] then Origin else segments[|segments| - 1].end
  }

  /** A segment from the path's end to a vertex, in the next colour, extends the path. */
  lemma ExtendPath(segments: seq<Segment>, vertices: seq<Vec3>, next: Segment)
    requires Path(segments, vertices)
    requires next.start == PathEnd(segments) && next.end in vertices && next.hue == SegmentHue(|segments| + 1)
    ensures Path(segments + [next], vertices) && PathEnd(segments + [next]) == next.end
  {
    var extended := segments + [next];
    assert forall i :: 0 <= i < |segments| ==> extended[i] == segments[i];
  }

  class Shape {
    /** The icosahedron's vertices. */
    const vertices: seq<Vec3>
    var startVector: Vec3
    var endVector: Vec3
    var currentLine: nat
    var colorStart: Hue
    /** The segment each line was last given. */
    var lineOne: Segment
    var lineTwo: Segment
    /** drawLine calls scheduled by delayedCall and not yet run. */
    var pendingCalls: nat
    /** Every segment drawn so far, in order. */
    ghost var drawn: seq<Segment>

    ghost predicate Valid()
      reads this
    {
      && |vertices| > 0
      && Path(drawn, vertices)
      && startVector == endVector == PathEnd(drawn)
      && currentLine == |drawn| % 2
      && colorStart == SegmentHue(|drawn|)
      && (|drawn| % 2 == 1 ==> lineOne == drawn[|drawn| - 1])
      && (|drawn| > 0 && |drawn| % 2 == 0 ==> lineTwo == drawn[|drawn| - 1])
    }

    /**
     * The constructor: both vectors at the origin, line one next, colour
     * #00CCFF; then the first drawLine.
     */
    constructor (vertices: seq<Vec3>, draw: real)
      requires |vertices| > 0 && JsMath.IsDraw(draw)
      ensures Valid() && this.vertices == vertices
      ensures |drawn| == 1 && drawn[0].start == Origin && drawn[0].end in vertices && drawn[0].hue == Spin(Cyan, 5.0)
      ensures lineOne == drawn[0] && currentLine == 1 && pendingCalls == 1
    {
      this.vertices := vertices;
      colorStart := Cyan;
      startVector, endVector := Origin, Origin;
      currentLine := 0;
      lineOne, lineTwo := Segment(Origin, Origin, Cyan), Segment(Origin, Origin, Cyan);
      pendingCalls := 0;
      drawn := [];
      new;
      assert SegmentHue(0) == Cyan;
      DrawLine(draw);
    }

    /**
     * drawLine: a segment from the current start to a random vertex, drawn by
     * the line whose turn it is in the next colour; the end becomes the next
     * start, the turn passes to the other line and one more call is scheduled.
     */
    method DrawLine(draw: real)
      requires Valid() && JsMath.IsDraw(draw)
      modifies this
      ensures Valid()
      ensures drawn == old(drawn) + [Segment(old(startVector), vertices[JsMath.RandomIndex(draw, |vertices|)], Spin(old(colorStart), 5.0))]
      ensures old(currentLine) == 0 ==> lineOne == drawn[|drawn| - 1] && lineTwo == old(lineTwo) && currentLine == 1
      ensures old(currentLine) == 1 ==> lineTwo == drawn[|drawn| - 1] && lineOne == old(lineOne) && currentLine == 0
      ensures pendingCalls == old(pendingCalls) + 1
    {
      ghost var before := drawn;
      var rv := JsMath.RandomIndex(draw, |vertices|);
      endVector := vertices[rv];
      var lineCoords := (startVector, endVector);
      startVector := endVector;

      SegmentHueStep(|drawn|);
      var color := Spin(colorStart, 5.0);
      var segment := Segment(lineCoords.0, lineCoords.1, color);
      if currentLine == 0 {
        lineOne := segment;
        currentLine := 1;
      } else {
        lineTwo := segment;
        currentLine := 0;
      }
      colorStart := color;
      ExtendPath(before, vertices, segment);
      drawn := before + [segment];
      pendingCalls := pendingCalls + 1;
    }

    /** A scheduled drawLine runs: it uses up its own call and schedules the next, so one stays pending. */
    method RunScheduled(draw: real)
      requires Valid() && pendingCalls > 0 && JsMath.IsDraw(draw)
      modifies this
      ensures Valid() && pendingCalls == old(pendingCalls)
      ensures |drawn| == |old(drawn)| + 1 && drawn[..|old(drawn)|] == old(drawn)
    {
      pendingCalls := pendingCalls - 1;
      DrawLine(draw);
    }
  }

  /**
   * Over any number of scheduled calls the segments form one connected path
   * from the origin, their colours step by 5 degrees, and one call stays
   * pending.
   */
  method DrawMany(s: Shape, draws: seq<real>)
    requires s.Valid() && s.pendingCalls == 1
    requires forall i :: 0 <= i < |draws| ==> JsMath.IsDraw(draws[i])
    modifies s
    ensures s.Valid() && s.pendingCalls == 1
    ensures |s.drawn| == |old(s.drawn)| + |draws| && Chained(s.drawn)
    ensures forall i :: 0 < i < |s.drawn| ==> s.drawn[i].hue == Spin(s.drawn[i - 1].hue, 5.0)
  {
    var k := 0;
    while k < |draws|
      invariant 0 <= k <= |draws| && s.Valid() && s.pendingCalls == 1
      invariant |s.drawn| == |old(s.drawn)| + k
    {
      s.RunScheduled(draws[k]);
      k := k + 1;
    }
    forall i | 0 < i < |s.drawn|
      ensures s.drawn[i].hue == Spin(s.drawn[i - 1].hue, 5.0)
    {
      SegmentHueStep(i);
    }
  }
}
