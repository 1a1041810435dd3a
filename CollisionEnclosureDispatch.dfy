// The collision detector's enclosure dispatchers
// (CollisionDetector::isVolumeEnclosingVolume and the three
// is*EnclosingVolume functions). The first operand's kind picks a
// dispatcher, the second operand's kind picks the pairwise test; an
// axis-aligned box on either side is never enclosed and never encloses.

module EnclosureDispatch {
  import opened Vectors
  import opened Volumes
  import opened Enclosures
  import opened BoxEnclosures

  /** isSphereEnclosingVolume. */
  function SphereEncloses(s: SphereGeom, v: Volume, sqrt: real -> real): (r: bool)
    ensures v.AabbVolume? ==> !r
  {
    match v
    case SphereVolume(t) => SphereEnclosingSphere(s, t, sqrt)
    case CapsuleVolume(k) => SphereEnclosingCapsule(s, k, sqrt)
    case ObbVolume(o) => SphereEnclosingObb(s, o)
    case AabbVolume(_) => false
  }

  /** isCapsuleEnclosingVolume. */
  function CapsuleEncloses(k: CapsuleGeom, v: Volume, sqrt: real -> real): (r: bool)
    ensures v.AabbVolume? ==> !r
  {
    match v
    case SphereVolume(s) => CapsuleEnclosingSphere(k, s, sqrt)
    case CapsuleVolume(k2) => CapsuleEnclosingCapsule(k, k2, sqrt)
    case ObbVolume(o) => CapsuleEnclosingObb(k, o)
    case AabbVolume(_) => false
  }

  /** isOBBEnclosingVolume; ax are the rotation axes of the sphere or capsule operand. */
  function ObbEncloses(o: ObbGeom, v: Volume, ax: Axes): (r: bool)
    ensures v.AabbVolume? ==> !r
  {
    match v
    case SphereVolume(s) => ObbEnclosingSphere(o, s, ax)
    case CapsuleVolume(k) => ObbEnclosingCapsule(o, k, ax)
    case ObbVolume(b) => ObbEnclosingObb(o, b)
    case AabbVolume(_) => false
  }

  /** isVolumeEnclosingVolume: an axis-aligned box on either side gives false. */
  function VolumeEncloses(v1: Volume, v2: Volume, ax: Axes, sqrt: real -> real): (r: bool)
    ensures v1.AabbVolume? || v2.AabbVolume? ==> !r
  {
    match v1
    case SphereVolume(s) => SphereEncloses(s, v2, sqrt)
    case CapsuleVolume(k) => CapsuleEncloses(k, v2, sqrt)
    case ObbVolume(o) => ObbEncloses(o, v2, ax)
    case AabbVolume(_) => false
  }

  /**
   * When a box is found to enclose a volume, it holds, up to epsilon, the
   * sphere's center, both ends of the capsule's line, or the box's center.
   */
  lemma BoxEnclosesHoldsCenter(o: ObbGeom, v: Volume, ax: Axes, sqrt: real -> real)
    requires VolumeEncloses(ObbVolume(o), v, ax, sqrt)
    ensures v.SphereVolume? ==> InSlackBox(o, v.sphere.center)
    ensures v.CapsuleVolume? ==> InSlackBox(o, v.capsule.actualStart) && InSlackBox(o, v.capsule.actualEnd)
    ensures v.ObbVolume? ==> InSlackBox(o, v.box.center)
  {
    match v
    case SphereVolume(s) => ObbEnclosingSphereHoldsCenter(o, s, ax);
    case CapsuleVolume(k) => ObbEnclosingCapsuleHoldsLine(o, k, ax);
    case ObbVolume(b) => ObbEnclosingObbHoldsCenter(o, b);
  }

  /**
   * When a sphere or a capsule is found to enclose a box, the box's center
   * is within the squared radius plus epsilon of the sphere's center or of
   * the capsule's line.
   */
  lemma RoundEnclosesBoxCenter(v: Volume, o: ObbGeom, ax: Axes, sqrt: real -> real)
    requires v.SphereVolume? || v.CapsuleVolume?
    requires VolumeEncloses(v, ObbVolume(o), ax, sqrt)
    ensures v.SphereVolume? ==>
              DistSq(v.sphere.center, o.center) <= Square(v.sphere.WorldRadius()) + Epsilon
    ensures v.CapsuleVolume? ==>
              SqDistToSegment(o.center, v.capsule.actualStart, v.capsule.actualEnd)
                <= v.capsule.actualRadius * v.capsule.actualRadius + Epsilon
  {
    match v
    case SphereVolume(s) => SphereEnclosingObbHoldsCenter(s, o);
    case CapsuleVolume(k) => CapsuleEnclosingObbHoldsCenter(k, o);
  }
}
