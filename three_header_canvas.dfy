/**
 * ThreeHeaderCanvas: the header's 3D scene. The palette's middle colour
 * tints the fog, the directional light and the wireframe box; the main
 * container receives the box, two shape swarms and a bright cluster, and
 * later the particle fields built once each star sprite has loaded.
 */
module ThreeHeaderCanvas {
  import opened Colors
  import opened Scene
  import opened Viewport
  import JsMath

  datatype Node =
    | WireframeBox(size: nat, segments: nat, hue: Hue)
    | ShapeSwarm(count: nat, bounds: Vec3)
    | BrightCluster
    | ParticleField(amount: nat, particleSize: real, opacity: real, bounds: Vec3)

  /** `Math.floor(colors.length / 2)`: the middle of a non-empty palette. */
  function MiddleColor(paletteLength: nat): (m: nat)
    requires paletteLength > 0
    ensures m < paletteLength
    ensures 2 * m <= paletteLength < 2 * m + 2
  {
    paletteLength / 2
  }

  predicate AllDraws(draws: seq<real>) {
    forall i :: 0 <= i < |draws| ==> JsMath.IsDraw(draws[i])
  }

  /** A small-star field: 500 particles of size 0.5 + r, opacity 0.4, in a 200×250×200 box. */
  function SmallField(r: real): Node {
    ParticleField(500, 0.5 + r, 0.4, Vec3(200.0, 250.0, 200.0))
  }

  /** A large-star field: 5 particles of size 10 + 30·r, opacity 0.7, in a 150 box. */
  function LargeField(r: real): Node {
    ParticleField(5, 10.0 + r * 30.0, 0.7, Vec3(150.0, 150.0, 150.0))
  }

  /** The number of fields buildParticles adds for a sprite size. */
  function FieldCount(imageSize: string): nat {
    if imageSize == "small" then 50 else if imageSize == "large" then 20 else 0
  }

  /** The fields buildParticles adds, field i sized by draw i. */
  function Fields(imageSize: string, sizeDraws: seq<real>): (fields: seq<Node>)
    requires |sizeDraws| >= FieldCount(imageSize)
  {
    if imageSize == "small" then seq(50, i requires 0 <= i < 50 => SmallField(sizeDraws[i]))
    else if imageSize == "large" then seq(20, i requires 0 <= i < 20 => LargeField(sizeDraws[i]))
    else []
  }

  /** The particles one call adds: 50 × 500 for "small", 20 × 5 for "large", none otherwise. */
  function ParticleTotal(fields: seq<Node>): nat {
    if fields == [] then 0
    else (if fields[0].ParticleField? then fields[0].amount else 0) + ParticleTotal(fields[1..])
  }

  lemma {:induction false} ParticleTotalUniform(fields: seq<Node>, amount: nat)
    requires forall i :: 0 <= i < |fields| ==> fields[i].ParticleField? && fields[i].amount == amount
    ensures ParticleTotal(fields) == |fields| * amount
  {
    if fields != [] {
      ParticleTotalUniform(fields[1..], amount);
    }
  }

  /** buildParticles adds 25000 small particles, 100 large ones, or nothing for any other size name; sizes stay in their ranges. */
  lemma FieldsCounts(imageSize: string, sizeDraws: seq<real>)
    requires |sizeDraws| >= FieldCount(imageSize) && AllDraws(sizeDraws)
    ensures |Fields(imageSize, sizeDraws)| == FieldCount(imageSize)
    ensures imageSize == "small" ==> ParticleTotal(Fields(imageSize, sizeDraws)) == 25000
    ensures imageSize == "large" ==> ParticleTotal(Fields(imageSize, sizeDraws)) == 100
    ensures imageSize != "small" && imageSize != "large" ==> Fields(imageSize, sizeDraws) == []
    ensures forall i :: 0 <= i < |Fields(imageSize, sizeDraws)| ==>
              var f := Fields(imageSize, sizeDraws)[i];
              if imageSize == "small" then 0.5 <= f.particleSize < 1.5 else 10.0 <= f.particleSize < 40.0
  {
    if imageSize == "small" {
      ParticleTotalUniform(Fields(imageSize, sizeDraws), 500);
    } else if imageSize == "large" {
      ParticleTotalUniform(Fields(imageSize, sizeDraws), 5);
    }
  }

  class HeaderCanvas {
    const middleColor: nat
    const fogHue: Hue
    const lightHue: Hue
    const mainContainer: Group<Node>
    var framesDrawn: nat

    /**
     * The constructor: the palette's middle colour tints fog, light and
     * wireframe box, and the main container gets exactly four children.
     */
    constructor (colors: seq<Hue>)
      requires |colors| > 0
      ensures middleColor == MiddleColor(|colors|)
      ensures fogHue == lightHue == colors[middleColor]
      ensures fresh(mainContainer)
      ensures mainContainer.children == [
                WireframeBox(2000, 12, colors[middleColor]),
                ShapeSwarm(5, Vec3(120.0, 200.0, 50.0)),
                ShapeSwarm(5, Vec3(30.0, 75.0, 20.0)),
                BrightCluster]
      ensures framesDrawn == 0
    {
      var middle := |colors| / 2;
      middleColor := middle;
      fogHue := colors[middle];
      lightHue := colors[middle];
      var group := new Group<Node>();
      group.children := group.children + [WireframeBox(2000, 12, colors[middle])];
      group.children := group.children + [ShapeSwarm(5, Vec3(120.0, 200.0, 50.0))];
      group.children := group.children + [ShapeSwarm(5, Vec3(30.0, 75.0, 20.0))];
      group.children := group.children + [BrightCluster];
      mainContainer := group;
      framesDrawn := 0;
    }

    /** buildParticles: appends the particle fields for the loaded sprite. */
    method BuildParticles(imageSize: string, sizeDraws: seq<real>)
      requires |sizeDraws| >= FieldCount(imageSize) && AllDraws(sizeDraws)
      modifies mainContainer
      ensures mainContainer.children == old(mainContainer.children) + Fields(imageSize, sizeDraws)
    {
      var added: seq<Node> := [];
      if imageSize == "small" {
        for i := 0 to 50
          invariant mainContainer.children == old(mainContainer.children) + added
          invariant added == seq(i, k requires 0 <= k < i => SmallField(sizeDraws[k]))
        {
          var size := 0.5 + sizeDraws[i] * 1.0;
          mainContainer.children := mainContainer.children + [ParticleField(500, size, 0.4, Vec3(200.0, 250.0, 200.0))];
          added := added + [SmallField(sizeDraws[i])];
        }
      } else if imageSize == "large" {
        for i := 0 to 20
          invariant mainContainer.children == old(mainContainer.children) + added
          invariant added == seq(i, k requires 0 <= k < i => LargeField(sizeDraws[k]))
        {
          var size := 10.0 + sizeDraws[i] * 30.0;
          mainContainer.children := mainContainer.children + [ParticleField(5, size, 0.7, Vec3(150.0, 150.0, 150.0))];
          added := added + [LargeField(sizeDraws[i])];
        }
      }
    }

    /** render: draws exactly when the canvas is in the viewport. */
    method Render(canvasElement: Element, window: Window) returns (drawn: bool)
      modifies this
      ensures drawn == InViewport(canvasElement, window)
      ensures framesDrawn == old(framesDrawn) + (if drawn then 1 else 0)
    {
      drawn := ElementInViewport(canvasElement, window);
      if drawn {
        framesDrawn := framesDrawn + 1;
      }
    }
  }
}
