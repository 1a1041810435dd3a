// The Contact record: a contact point, a contact normal, a penetration
// depth and a validity flag, all four overwritten by the setters and the
// assignments. The collision detector hands contacts around by value; the
// same four fields as a value are ContactInfo.
module Contacts {
  import opened Vectors

  datatype ContactValidity = Invalid | Valid

  /** The four fields of a contact, as a value. */
  datatype ContactInfo = ContactInfo(point: Vec3, normal: Vec3, penetration: real, validity: ContactValidity)

  class Contact {
    var contactPoint: Vec3
    var contactNormal: Vec3
    var penetration: real
    var validity: ContactValidity

    /** The four fields as a value. */
    function Info(): ContactInfo
      reads this
    {
      ContactInfo(contactPoint, contactNormal, penetration, validity)
    }

    constructor (contactPoint: Vec3, contactNormal: Vec3, penetration: real, validity: ContactValidity)
      ensures Info() == ContactInfo(contactPoint, contactNormal, penetration, validity)
    {
      this.contactPoint := contactPoint;
      this.contactNormal := contactNormal;
      this.penetration := penetration;
      this.validity := validity;
    }

    /** The copy and the move constructor: all four fields. */
    constructor Copy(contact: Contact)
      ensures Info() == contact.Info()
    {
      contactPoint := contact.contactPoint;
      contactNormal := contact.contactNormal;
      penetration := contact.penetration;
      validity := contact.validity;
    }

    /** Copy and move assignment: all four fields. */
    method Assign(contact: Contact)
      modifies this
      ensures Info() == old(contact.Info())
    {
      contactPoint := contact.contactPoint;
      contactNormal := contact.contactNormal;
      penetration := contact.penetration;
      validity := contact.validity;
    }

    method SetContactPoint(p: Vec3)
      modifies this
      ensures Info() == old(Info()).(point := p)
    {
      contactPoint := p;
    }

    method SetContactNormal(n: Vec3)
      modifies this
      ensures Info() == old(Info()).(normal := n)
    {
      contactNormal := n;
    }

    method SetPenetration(d: real)
      modifies this
      ensures Info() == old(Info()).(penetration := d)
    {
      penetration := d;
    }

    method SetContactValidity(v: ContactValidity)
      modifies this
      ensures Info() == old(Info()).(validity := v)
    {
      validity := v;
    }
  }
}
