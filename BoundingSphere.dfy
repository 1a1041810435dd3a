// The bounding sphere: a scene node with a local radius. Its world radius
// is the local radius scaled by the largest absolute scale factor of the
// node's transform. Rendering state (vertex buffers) is not modelled; the
// shader is kept as a reference the copies carry over.
module BoundingSpheres {
  import opened Vectors
  import opened SceneObjects

  /** A shader program; only its identity matters here. */
  class Shader {
  }

  /**
   * getActualRadius: the radius times each absolute scale factor, and the
   * largest of the three.
   */
  function ActualRadius(radius: real, scale: Vec3): (r: real)
    ensures r >= Abs(scale.x) * radius && r >= Abs(scale.y) * radius && r >= Abs(scale.z) * radius
    ensures r == Abs(scale.x) * radius || r == Abs(scale.y) * radius || r == Abs(scale.z) * radius
  {
    Max(Max(Abs(scale.x) * radius, Abs(scale.y) * radius), Abs(scale.z) * radius)
  }

  /** A non-negative radius has a non-negative world radius. */
  lemma ActualRadiusNonNegative(radius: real, scale: Vec3)
    ensures radius >= 0.0 ==> ActualRadius(radius, scale) >= 0.0
  {
    if radius >= 0.0 {
      MulNonNegative(Abs(scale.x), radius);
    }
  }

  /** Under a scale whose factors are all +1 or -1 the world radius is the radius. */
  lemma ActualRadiusUnitScale(radius: real, scale: Vec3)
    requires Abs(scale.x) == 1.0 && Abs(scale.y) == 1.0 && Abs(scale.z) == 1.0
    ensures ActualRadius(radius, scale) == radius
  {
  }

  /** For a fixed scale, a larger local radius never gives a smaller world radius. */
  lemma ActualRadiusMonotone(r1: real, r2: real, scale: Vec3)
    requires r1 <= r2
    ensures ActualRadius(r1, scale) <= ActualRadius(r2, scale)
  {
    ScaledRadiiOrdered(r1, r2, scale, ActualRadius(r1, scale), ActualRadius(r2, scale));
  }

  /**
   * A value that is one of the scaled radii r1 |s_i| is at most a value
   * that bounds every scaled radius r2 |s_i|, when r1 <= r2.
   */
  lemma ScaledRadiiOrdered(r1: real, r2: real, scale: Vec3, a1: real, a2: real)
    requires r1 <= r2
    requires a1 == Abs(scale.x) * r1 || a1 == Abs(scale.y) * r1 || a1 == Abs(scale.z) * r1
    requires a2 >= Abs(scale.x) * r2 && a2 >= Abs(scale.y) * r2 && a2 >= Abs(scale.z) * r2
    ensures a1 <= a2
  {
    ScaledMonotone(Abs(scale.x), r1, r2);
    ScaledMonotone(Abs(scale.y), r1, r2);
    ScaledMonotone(Abs(scale.z), r1, r2);
  }

  lemma ScaledMonotone(a: real, r1: real, r2: real)
    requires a >= 0.0 && r1 <= r2
    ensures a * r1 <= a * r2
  {
    MulNonNegative(a, r2 - r1);
    assert a * (r2 - r1) == a * r2 - a * r1;
  }

  class BoundingSphere {
    var radius: real
    var name: string
    var transform: Transform
    var children: seq<SceneObject?>
    var shader: Shader?

    /** A new sphere: the radius, the name and the transform; no children, no shader. */
    constructor (radius: real, name: string, transform: Transform)
      ensures this.radius == radius && this.name == name && this.transform == transform
      ensures children == [] && shader == null
    {
      this.radius := radius;
      this.name := name;
      this.transform := transform;
      children := [];
      shader := null;
    }

    /** The copy (and move) constructor: radius, name, transform, children and shader. */
    constructor Copy(sphere: BoundingSphere)
      ensures radius == sphere.radius && name == sphere.name && transform == sphere.transform
      ensures children == sphere.children && shader == sphere.shader
    {
      radius := sphere.radius;
      name := sphere.name;
      transform := sphere.transform;
      children := sphere.children;
      shader := sphere.shader;
    }

    /** Copy (and move) assignment: the same five fields. */
    method Assign(sphere: BoundingSphere)
      modifies this
      ensures radius == old(sphere.radius) && name == old(sphere.name) && transform == old(sphere.transform)
      ensures children == old(sphere.children) && shader == old(sphere.shader)
    {
      radius, name, transform, children, shader := sphere.radius, sphere.name, sphere.transform, sphere.children, sphere.shader;
    }

    /** setRadius: only the radius changes, so getRadius reads the new value back. */
    method SetRadius(r: real)
      modifies this
      ensures radius == r
      ensures name == old(name) && transform == old(transform) && children == old(children) && shader == old(shader)
    {
      radius := r;
    }

    /** getActualRadius of this sphere. */
    function GetActualRadius(): (r: real)
      reads this
      ensures r == ActualRadius(radius, transform.scale)
      ensures radius >= 0.0 ==> r >= 0.0
    {
      ActualRadiusNonNegative(radius, transform.scale);
      ActualRadius(radius, transform.scale)
    }
  }
}
