// The collision detector's intersection dispatchers
// (CollisionDetector::isVolumeIntersectingVolume and the three
// is*IntersectingVolume functions). The first operand's kind picks a
// dispatcher, the second operand's kind picks the pairwise routine; a
// pair routine written for the operands in the other order is called
// with reverseContactTarget set, and an axis-aligned box on either side
// gets the invalid all-zero contact.

module Dispatch {
  import opened Vectors
  import opened Volumes
  import opened Contacts
  import opened Collisions
  import opened BoxContacts

  /** isSphereIntersectingVolume. */
  function SphereContact(s: SphereGeom, v: Volume, sqrt: real -> real): (c: ContactInfo)
    ensures v.AabbVolume? ==> c == NoContact
  {
    match v
    case SphereVolume(t) => SphereSphere(s, t, sqrt)
    case CapsuleVolume(k) => CapsuleSphere(k, s, true, sqrt)
    case ObbVolume(o) => ObbSphere(o, s, true, sqrt)
    case AabbVolume(_) => NoContact
  }

  /** isCapsuleIntersectingVolume. */
  function CapsuleContact(k: CapsuleGeom, v: Volume, sqrt: real -> real): (c: ContactInfo)
    ensures v.AabbVolume? ==> c == NoContact
  {
    match v
    case SphereVolume(s) => CapsuleSphere(k, s, false, sqrt)
    case CapsuleVolume(k2) => CapsuleCapsule(k, k2, sqrt)
    case ObbVolume(o) => ObbCapsule(o, k, true, sqrt)
    case AabbVolume(_) => NoContact
  }

  /** isOBBIntersectingVolume. */
  function ObbContact(o: ObbGeom, v: Volume, sqrt: real -> real): (c: ContactInfo)
    ensures v.AabbVolume? ==> c == NoContact
  {
    match v
    case SphereVolume(s) => ObbSphere(o, s, false, sqrt)
    case CapsuleVolume(k) => ObbCapsule(o, k, false, sqrt)
    case ObbVolume(b) => ObbObb(o, b, sqrt)
    case AabbVolume(_) => NoContact
  }

  /** isVolumeIntersectingVolume: an axis-aligned box on either side gets the invalid all-zero contact. */
  function VolumeContact(v1: Volume, v2: Volume, sqrt: real -> real): (c: ContactInfo)
    ensures v1.AabbVolume? || v2.AabbVolume? ==> c == NoContact
  {
    match v1
    case SphereVolume(s) => SphereContact(s, v2, sqrt)
    case CapsuleVolume(k) => CapsuleContact(k, v2, sqrt)
    case ObbVolume(o) => ObbContact(o, v2, sqrt)
    case AabbVolume(_) => NoContact
  }

  /** Two operands of the same kind, which only the capsule-capsule and box-box routines see both ways round. */
  predicate SameNonSphereKind(v1: Volume, v2: Volume) {
    (v1.CapsuleVolume? && v2.CapsuleVolume?) || (v1.ObbVolume? && v2.ObbVolume?)
  }

  /** d is c seen from the other operand: the same validity and penetration, the normal turned round. */
  predicate Mirrored(c: ContactInfo, d: ContactInfo) {
    c.validity == d.validity && c.penetration == d.penetration && d.normal == Neg(c.normal)
  }

  /**
   * Swapping the operands of a mixed pair (or of two spheres) keeps the
   * validity and the penetration and turns the normal round: the routine
   * for the other order runs with reverseContactTarget set.
   */
  lemma VolumeContactSwapped(v1: Volume, v2: Volume, sqrt: real -> real)
    requires !SameNonSphereKind(v1, v2)
    ensures Mirrored(VolumeContact(v1, v2, sqrt), VolumeContact(v2, v1, sqrt))
  {
    if v1.AabbVolume? || v2.AabbVolume? {
      assert Neg(Zero) == Zero;
    } else if v1.SphereVolume? && v2.SphereVolume? {
      SphereSphereSwapped(v1.sphere, v2.sphere, sqrt);
    } else if v1.SphereVolume? || v2.SphereVolume? {
      SphereOtherSwapped(v1, v2, sqrt);
    } else {
      CapsuleObbSwapped(v1, v2, sqrt);
    }
  }

  /** A sphere against a capsule or a box, in either order. */
  lemma SphereOtherSwapped(v1: Volume, v2: Volume, sqrt: real -> real)
    requires v1.SphereVolume? != v2.SphereVolume?
    requires !v1.AabbVolume? && !v2.AabbVolume?
    ensures Mirrored(VolumeContact(v1, v2, sqrt), VolumeContact(v2, v1, sqrt))
  {
    var s := if v1.SphereVolume? then v1.sphere else v2.sphere;
    var other := if v1.SphereVolume? then v2 else v1;
    var c, d := VolumeContact(SphereVolume(s), other, sqrt), VolumeContact(other, SphereVolume(s), sqrt);
    if other.CapsuleVolume? {
      assert c == CapsuleSphere(other.capsule, s, true, sqrt);
      assert d == CapsuleSphere(other.capsule, s, false, sqrt);
      CapsuleSphereReverse(other.capsule, s, sqrt);
    } else {
      assert c == ObbSphere(other.box, s, true, sqrt);
      assert d == ObbSphere(other.box, s, false, sqrt);
      ObbSphereReverse(other.box, s, sqrt);
    }
    assert Mirrored(d, c) by {
      assert Neg(Neg(c.normal)) == c.normal;
    }
  }

  /** A capsule against a box, in either order: the box-capsule normal is zero both ways. */
  lemma CapsuleObbSwapped(v1: Volume, v2: Volume, sqrt: real -> real)
    requires (v1.CapsuleVolume? && v2.ObbVolume?) || (v1.ObbVolume? && v2.CapsuleVolume?)
    ensures Mirrored(VolumeContact(v1, v2, sqrt), VolumeContact(v2, v1, sqrt))
  {
    hide ObbCapsule, ObbSphere, ObbObb, CapsuleCapsule, CapsuleSphere, SphereSphere;
    if v1.CapsuleVolume? {
      CapsuleObbMirrored(v1.capsule, v2.box, sqrt);
      assert v1 == CapsuleVolume(v1.capsule) && v2 == ObbVolume(v2.box);
    } else {
      CapsuleObbMirrored(v2.capsule, v1.box, sqrt);
      assert v2 == CapsuleVolume(v2.capsule) && v1 == ObbVolume(v1.box);
    }
  }

  /** The capsule-box contact and the box-capsule contact mirror each other, both ways round. */
  lemma CapsuleObbMirrored(k: CapsuleGeom, o: ObbGeom, sqrt: real -> real)
    ensures Mirrored(VolumeContact(CapsuleVolume(k), ObbVolume(o), sqrt), VolumeContact(ObbVolume(o), CapsuleVolume(k), sqrt))
    ensures Mirrored(VolumeContact(ObbVolume(o), CapsuleVolume(k), sqrt), VolumeContact(CapsuleVolume(k), ObbVolume(o), sqrt))
  {
    hide *;
    CapsuleObbContacts(k, o, sqrt);
    ObbCapsuleReverse(o, k, sqrt);
    ObbCapsuleNormalIsZero(o, k, true, sqrt);
    ObbCapsuleNormalIsZero(o, k, false, sqrt);
    ZeroNormalsMirrored(ObbCapsule(o, k, true, sqrt), ObbCapsule(o, k, false, sqrt));
  }

  /** The dispatcher hands a capsule-box pair to the box-capsule routine, reversed when the capsule comes first. */
  lemma CapsuleObbContacts(k: CapsuleGeom, o: ObbGeom, sqrt: real -> real)
    ensures VolumeContact(CapsuleVolume(k), ObbVolume(o), sqrt) == ObbCapsule(o, k, true, sqrt)
    ensures VolumeContact(ObbVolume(o), CapsuleVolume(k), sqrt) == ObbCapsule(o, k, false, sqrt)
  {
    // only the dispatch is unfolded here, not the pair routines themselves
    hide ObbCapsule, ObbSphere, ObbObb, CapsuleCapsule, CapsuleSphere, SphereSphere;
  }

  /** Two contacts that agree on validity and penetration and both have a zero normal mirror each other. */
  lemma ZeroNormalsMirrored(c: ContactInfo, d: ContactInfo)
    requires c.validity == d.validity && c.penetration == d.penetration
    requires c.normal == Zero && d.normal == Zero
    ensures Mirrored(c, d) && Mirrored(d, c)
  {
    assert Neg(Zero) == Zero;
  }

  /** Whatever the operands, an invalid contact is the all-zero one. */
  lemma VolumeContactInvalidIsZero(v1: Volume, v2: Volume, sqrt: real -> real)
    ensures var c := VolumeContact(v1, v2, sqrt);
            c.validity == Invalid ==> c == NoContact
  {
    match (v1, v2)
    case (CapsuleVolume(k1), CapsuleVolume(k2)) =>
      CapsuleCapsuleInvalid(k1, k2, sqrt);
    case (ObbVolume(a), ObbVolume(b)) =>
      ObbObbInvalid(a, b, sqrt);
    case (SphereVolume(s), ObbVolume(o)) =>
      ObbSphereInvalid(o, s, true, sqrt);
    case (ObbVolume(o), SphereVolume(s)) =>
      ObbSphereInvalid(o, s, false, sqrt);
    case (CapsuleVolume(k), ObbVolume(o)) =>
      ObbCapsuleInvalid(o, k, true, sqrt);
    case (ObbVolume(o), CapsuleVolume(k)) =>
      ObbCapsuleInvalid(o, k, false, sqrt);
    case (_, _) =>
  }

  /** The capsule-capsule routine's contact is valid or all zero. */
  lemma CapsuleCapsuleInvalid(k1: CapsuleGeom, k2: CapsuleGeom, sqrt: real -> real)
    ensures var c := CapsuleCapsule(k1, k2, sqrt);
            c.validity == Invalid ==> c == NoContact
  {
  }

  /** The box-box routine's contact is valid or all zero. */
  lemma ObbObbInvalid(a: ObbGeom, b: ObbGeom, sqrt: real -> real)
    ensures var c := ObbObb(a, b, sqrt);
            c.validity == Invalid ==> c == NoContact
  {
    ObbObbValidIff(a, b, sqrt);
  }

  /** The box-sphere routine's contact is valid or all zero. */
  lemma ObbSphereInvalid(o: ObbGeom, s: SphereGeom, reverse: bool, sqrt: real -> real)
    ensures var c := ObbSphere(o, s, reverse, sqrt);
            c.validity == Invalid ==> c == NoContact
  {
  }

  /** The box-capsule routine's contact is valid or all zero. */
  lemma ObbCapsuleInvalid(o: ObbGeom, k: CapsuleGeom, reverse: bool, sqrt: real -> real)
    ensures var c := ObbCapsule(o, k, reverse, sqrt);
            c.validity == Invalid ==> c == NoContact
  {
    ObbCapsuleValid(o, k, k.actualRadius, reverse, sqrt);
  }
}
