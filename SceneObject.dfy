// A node of the scene: a name, a transform and the list of its children
// (shared pointers, compared by identity, possibly null). The transform is
// carried as data only; what the engine derives from it (matrices, world
// axes) is not part of this model.
module SceneObjects {
  import opened Vectors

  /** A quaternion w + x i + y j + z k. */
  datatype Quat = Quat(w: real, x: real, y: real, z: real)

  /** A dual quaternion: the primal part is the rotation, the dual part encodes the translation. */
  datatype DualQuat = DualQuat(primal: Quat, dual: Quat)

  /** Translation and rotation as a dual quaternion, and a scale per axis. */
  datatype Transform = Transform(translationAndRotation: DualQuat, scale: Vec3)

  /** The default transform: no rotation, no translation, unit scale. */
  const IdentityTransform := Transform(DualQuat(Quat(1.0, 0.0, 0.0, 0.0), Quat(0.0, 0.0, 0.0, 0.0)), Vec3(1.0, 1.0, 1.0))

  class SceneObject {
    var name: string
    var transform: Transform
    var children: seq<SceneObject?>

    /** Stores the name and the transform; a new node has no children. */
    constructor (name: string, transform: Transform)
      ensures this.name == name && this.transform == transform && children == []
    {
      this.name := name;
      this.transform := transform;
      children := [];
    }

    /** The copy (and move) constructor: name, transform and the same child pointers. */
    constructor Copy(other: SceneObject)
      ensures name == other.name && transform == other.transform && children == other.children
    {
      name := other.name;
      transform := other.transform;
      children := other.children;
    }

    /** Copy (and move) assignment. */
    method Assign(other: SceneObject)
      modifies this
      ensures name == old(other.name) && transform == old(other.transform) && children == old(other.children)
    {
      name, transform, children := other.name, other.transform, other.children;
    }

    /** The destructor's effect: the child list is emptied. */
    method Destroy()
      modifies this
      ensures children == [] && name == old(name) && transform == old(transform)
    {
      children := [];
    }

    method SetTransform(t: Transform)
      modifies this
      ensures transform == t && name == old(name) && children == old(children)
    {
      transform := t;
    }

    method SetName(n: string)
      modifies this
      ensures name == n && transform == old(transform) && children == old(children)
    {
      name := n;
    }
  }
}
