/** The program's mutable state (the module-level variables of
    style/script.js) and the two callbacks that change it: the hand-detector
    callback `OnResults` and the render tick `Animate`, together with the
    particle regeneration `InitParticles` they share. */
module Interact {
  import opened Shapes
  import opened Gesture
  import opened Animation

  /** How strongly horizontal hand motion between two frames feeds the
      rotation velocity. */
  const SteeringGain: real := 0.8

  class Visualizer {
    var currentShape: Shape
    /** Horizontal position of the middle-finger base in the last frame with a hand. */
    var lastHandX: real
    var rotationVelocity: real
    /** Instantaneous expansion derived from the last pinch seen. */
    var expansionFactor: real
    /** Low-pass filtered expansion used for drawing. */
    var smoothExp: real
    /** Rotation of the particle cloud about its vertical axis. */
    var rotationY: real
    /** Colour of the point material. */
    var color: int
    var targets: seq<Vec3>
    var dirs: seq<Vec3>
    /** The random and trigonometric draws of the last regeneration. */
    ghost var sampler: Sampler
    /** How many times the particles have been regenerated. */
    ghost var regenerations: nat

    /** The particle data always belongs to the current shape, is complete
        (one target and one direction per particle), and the colour matches
        the shape; both expansion values stay in [0, 1]. */
    ghost predicate Valid()
      reads this
    {
      && targets == Targets(currentShape, sampler)
      && dirs == Directions(currentShape, sampler)
      && color == ShapeColor(currentShape)
      && 0.0 <= expansionFactor <= 1.0
      && 0.0 <= smoothExp <= 1.0
    }

    /** The program's start: a star in yellow, at rest, with the hand assumed
        in the middle of the image. */
    constructor (sample: Sampler)
      ensures Valid()
      ensures currentShape == Star && color == 0xffff00
      ensures lastHandX == 0.5 && rotationVelocity == 0.0 && rotationY == 0.0
      ensures expansionFactor == 0.0 && smoothExp == 0.0
      ensures sampler == sample && regenerations == 1
    {
      expansionFactor := 0.0;
      currentShape := Star;
      lastHandX := 0.5;
      rotationVelocity := 0.0;
      rotationY := 0.0;
      color := 0xffff00;
      smoothExp := 0.0;
      targets, dirs := [], [];
      sampler := sample;
      regenerations := 0;
      new;
      InitParticles(sample);
    }

    /** Throw away the particle data and generate it afresh for the current
        shape: afterwards there are exactly ParticleCount targets and
        directions, none left over from before, each drawn from the branch
        its index falls into. */
    method InitParticles(sample: Sampler)
      modifies this`targets, this`dirs, this`sampler, this`regenerations
      ensures targets == Targets(currentShape, sample)
      ensures dirs == Directions(currentShape, sample)
      ensures sampler == sample && regenerations == old(regenerations) + 1
    {
      targets := [];
      dirs := [];
      for i := 0 to ParticleCount
        invariant |targets| == |dirs| == i
        invariant regenerations == old(regenerations)
        invariant forall j :: 0 <= j < i ==> targets[j] == DrawAt(currentShape, j, sample).point
        invariant forall j :: 0 <= j < i ==> dirs[j] == Direction(DrawAt(currentShape, j, sample))
      {
        var d := sample(BranchOf(currentShape, i), i);
        targets := targets + [d.point];
        dirs := dirs + [Direction(d)];
      }
      sampler := sample;
      regenerations := regenerations + 1;
    }

    /** Handle one detector result. `hands` holds the detected hands (the
        first is used); `pinch` is the distance between thumb tip and index
        tip of that hand, that is, the non-negative square root of their
        squared distance. Without a hand nothing changes. With a hand the
        horizontal motion of the middle-finger base is added to the rotation
        velocity, the finger pattern may select a new shape (which recolours
        the cloud and regenerates its particles, and only then), and the
        pinch sets the expansion factor. */
    method OnResults(hands: seq<seq<Landmark>>, pinch: real, sample: Sampler)
      requires Valid()
      requires |hands| > 0 ==>
        && IsHand(hands[0])
        && 0.0 <= pinch
        && pinch * pinch == SquaredDistance(hands[0][ThumbTip], hands[0][IndexTip])
      modifies this
      ensures Valid()
      ensures |hands| == 0 ==> unchanged(this)
      ensures |hands| > 0 ==>
        && lastHandX == hands[0][MiddleBase].x
        && rotationVelocity == old(rotationVelocity) + SteeringGain * (hands[0][MiddleBase].x - old(lastHandX))
        && currentShape == SelectShape(old(currentShape), ReadFingers(hands[0]))
        && expansionFactor == ExpansionFactor(pinch)
        && smoothExp == old(smoothExp) && rotationY == old(rotationY)
      ensures currentShape != old(currentShape) ==>
        && color == ShapeColor(currentShape)
        && targets == Targets(currentShape, sample)
        && dirs == Directions(currentShape, sample)
        && sampler == sample
        && regenerations == old(regenerations) + 1
      ensures currentShape == old(currentShape) ==>
        && color == old(color) && targets == old(targets) && dirs == old(dirs)
        && sampler == old(sampler) && regenerations == old(regenerations)
    {
      if |hands| > 0 {
        var landmarks := hands[0];

        var currentX := landmarks[MiddleBase].x;
        var dx := currentX - lastHandX;
        rotationVelocity := rotationVelocity + dx * SteeringGain;
        lastHandX := currentX;

        var newShape := SelectShape(currentShape, ReadFingers(landmarks));
        if newShape != currentShape {
          currentShape := newShape;
          color := ShapeColor(currentShape);
          InitParticles(sample);
        }

        expansionFactor := ExpansionFactor(pinch);
      }
    }

    /** One render tick: smooth the expansion, turn the cloud and decay its
        velocity, and return a newly allocated position buffer for this frame. */
    method Animate() returns (positions: array<real>)
      requires Valid()
      modifies this`smoothExp, this`rotationY, this`rotationVelocity
      ensures Valid()
      ensures smoothExp == SmoothStep(old(smoothExp), expansionFactor)
      ensures Spin(rotationY, rotationVelocity) == SpinTick(Spin(old(rotationY), old(rotationVelocity)))
      ensures fresh(positions)
      ensures positions.Length == 3 * ParticleCount
      ensures positions[..] == Flatten(Displaced(targets, dirs, smoothExp))
    {
      smoothExp := smoothExp + (expansionFactor - smoothExp) * SmoothingRate;

      rotationY := rotationY + rotationVelocity;
      rotationVelocity := rotationVelocity * VelocityDecay;
      rotationY := rotationY + IdleSpin;

      positions := FillPositions(targets, dirs, smoothExp);
    }
  }

  /** The same detector result delivered twice regenerates the particles at
      most once: the second delivery selects the shape the first one left. */
  method DeliverTwice(v: Visualizer, hands: seq<seq<Landmark>>, pinch: real, sample: Sampler)
    requires v.Valid()
    requires |hands| > 0 ==>
      && IsHand(hands[0])
      && 0.0 <= pinch
      && pinch * pinch == SquaredDistance(hands[0][ThumbTip], hands[0][IndexTip])
    modifies v
    ensures v.Valid()
    ensures v.regenerations <= old(v.regenerations) + 1
  {
    v.OnResults(hands, pinch, sample);
    ghost var shape := v.currentShape;
    if |hands| > 0 {
      SelectShapeIdempotent(old(v.currentShape), ReadFingers(hands[0]));
    }
    v.OnResults(hands, pinch, sample);
    assert v.currentShape == shape;
  }
}
