/**
 * The class EulerAnglesZyx: Z-Y'-X'' (yaw, pitch, roll) Euler angles stored
 * as a 3-element buffer [yaw; pitch; roll] together with a usage tag that
 * decides the sign convention between the buffer and the angles a caller
 * reads and writes. Also the same-representation conversion
 * (internal::ConversionTraits<EulerAnglesZyx, EulerAnglesZyx>::convert).
 */
module EigenImpl {
  import opened Common
  import opened EulerZyxSpec

  class EulerAnglesZyx {
    /** The Usage_ template parameter. */
    const usage: Usage
    /** zyx_: the stored payload, index 0 yaw, 1 pitch, 2 roll. */
    const zyx: array<real>

    ghost predicate Valid()
    {
      zyx.Length == 3
    }

    /** Default constructor: all angles zero, the identity rotation for either usage. */
    constructor Identity(u: Usage)
      ensures Valid() && fresh(zyx) && usage == u
      ensures ToStoredImplementation() == Zero && ToImplementation() == Zero
    {
      usage := u;
      zyx := new real[3](_ => 0.0);
    }

    /** Constructor from yaw, pitch and roll: stores them as given for ACTIVE, negated for PASSIVE. */
    constructor (u: Usage, yaw: real, pitch: real, roll: real)
      ensures Valid() && fresh(zyx) && usage == u
      ensures ToStoredImplementation() == UsageTransform(u, Angles(yaw, pitch, roll))
      ensures Yaw() == yaw && Pitch() == pitch && Roll() == roll
    {
      usage := u;
      var a := new real[3];
      if u == Active {
        a[0], a[1], a[2] := yaw, pitch, roll;
      } else {
        a[0], a[1], a[2] := -yaw, -pitch, -roll;
      }
      zyx := a;
    }

    /**
     * Explicit constructor from an Eigen 3-vector: the vector is read as
     * logical angles and stored through the usage transform.
     */
    constructor FromImplementation(u: Usage, other: Angles)
      ensures Valid() && fresh(zyx) && usage == u
      ensures ToStoredImplementation() == UsageTransform(u, other)
      ensures ToImplementation() == other
    {
      usage := u;
      var a := new real[3];
      if u == Active {
        a[0], a[1], a[2] := other.yaw, other.pitch, other.roll;
      } else {
        a[0], a[1], a[2] := -other.yaw, -other.pitch, -other.roll;
      }
      zyx := a;
    }

    /**
     * Constructor from another rotation, in its ZYX-to-ZYX case: the stored
     * payload of the converted rotation is copied. Because the conversion
     * negates for PASSIVE, so does this constructor. In C++ this template is
     * chosen over the implicit copy constructor only when the scalar types
     * differ (float and double), since reals do not distinguish the two.
     */
    constructor FromRotation(other: EulerAnglesZyx)
      requires other.Valid()
      ensures Valid() && fresh(zyx) && usage == other.usage
      ensures ToStoredImplementation() == ConvertedStoredAsWritten(other.usage, other.ToStoredImplementation())
      ensures ToImplementation() == other.ToStoredImplementation()
    {
      usage := other.usage;
      var converted := Convert(other);
      var a := new real[3];
      a[0], a[1], a[2] := converted.zyx[0], converted.zyx[1], converted.zyx[2];
      zyx := a;
    }

    /** toStoredImplementation: the raw payload, without the usage transform. */
    function ToStoredImplementation(): (r: Angles)
      reads zyx
      requires Valid()
      ensures r.yaw == zyx[0] && r.pitch == zyx[1] && r.roll == zyx[2]
    {
      Angles(zyx[0], zyx[1], zyx[2])
    }

    /** toImplementation: the logical angles; the stored payload negated exactly for PASSIVE. */
    function ToImplementation(): (r: Angles)
      reads zyx
      requires Valid()
      ensures usage == Active ==> r == ToStoredImplementation()
      ensures usage == Passive ==> r == Negated(ToStoredImplementation())
    {
      UsageTransform(usage, ToStoredImplementation())
    }

    function Yaw(): (r: real)
      reads zyx
      requires Valid()
      ensures r == ToImplementation().yaw
    {
      if usage == Active then zyx[0] else -zyx[0]
    }

    function Pitch(): (r: real)
      reads zyx
      requires Valid()
      ensures r == ToImplementation().pitch
    {
      if usage == Active then zyx[1] else -zyx[1]
    }

    function Roll(): (r: real)
      reads zyx
      requires Valid()
      ensures r == ToImplementation().roll
    {
      if usage == Active then zyx[2] else -zyx[2]
    }

    /** z() reads the same angle as yaw(). */
    function Z(): (r: real)
      reads zyx
      requires Valid()
      ensures r == Yaw()
    {
      if usage == Active then zyx[0] else -zyx[0]
    }

    /** y() reads the same angle as pitch(). */
    function Y(): (r: real)
      reads zyx
      requires Valid()
      ensures r == Pitch()
    {
      if usage == Active then zyx[1] else -zyx[1]
    }

    /** x() reads the same angle as roll(). */
    function X(): (r: real)
      reads zyx
      requires Valid()
      ensures r == Roll()
    {
      if usage == Active then zyx[2] else -zyx[2]
    }

    method SetYaw(yaw: real)
      requires Valid()
      modifies zyx
      ensures ToImplementation() == old(ToImplementation()).(yaw := yaw)
      ensures zyx[1] == old(zyx[1]) && zyx[2] == old(zyx[2])
    {
      if usage == Active {
        zyx[0] := yaw;
      } else {
        zyx[0] := -yaw;
      }
    }

    method SetPitch(pitch: real)
      requires Valid()
      modifies zyx
      ensures ToImplementation() == old(ToImplementation()).(pitch := pitch)
      ensures zyx[0] == old(zyx[0]) && zyx[2] == old(zyx[2])
    {
      if usage == Active {
        zyx[1] := pitch;
      } else {
        zyx[1] := -pitch;
      }
    }

    method SetRoll(roll: real)
      requires Valid()
      modifies zyx
      ensures ToImplementation() == old(ToImplementation()).(roll := roll)
      ensures zyx[0] == old(zyx[0]) && zyx[1] == old(zyx[1])
    {
      if usage == Active {
        zyx[2] := roll;
      } else {
        zyx[2] := -roll;
      }
    }

    /** setZ writes the yaw angle. */
    method SetZ(z: real)
      requires Valid()
      modifies zyx
      ensures ToImplementation() == old(ToImplementation()).(yaw := z)
      ensures Z() == z && Y() == old(Y()) && X() == old(X())
    {
      SetYaw(z);
    }

    /** setY writes the pitch angle. */
    method SetY(y: real)
      requires Valid()
      modifies zyx
      ensures ToImplementation() == old(ToImplementation()).(pitch := y)
      ensures Z() == old(Z()) && Y() == y && X() == old(X())
    {
      SetPitch(y);
    }

    /** setX writes the roll angle. */
    method SetX(x: real)
      requires Valid()
      modifies zyx
      ensures ToImplementation() == old(ToImplementation()).(roll := x)
      ensures Z() == old(Z()) && Y() == old(Y()) && X() == x
    {
      SetRoll(x);
    }

    /** setIdentity, as intended: all stored angles zero. */
    method SetIdentity()
      requires Valid()
      modifies zyx
      ensures ToStoredImplementation() == Zero && ToImplementation() == Zero
    {
      zyx[0], zyx[1], zyx[2] := 0.0, 0.0, 0.0;
    }

    /**
     * Assignment from another ZYX rotation of the same usage through the
     * template operator= or operator(): this object takes the stored payload
     * of the converted rotation. operator() always goes this way; operator=
     * does only across scalar types, a same-type `b = a` being a plain copy.
     */
    method Assign(other: EulerAnglesZyx)
      requires Valid() && other.Valid() && other.usage == usage
      modifies zyx
      ensures ToStoredImplementation() == ConvertedStoredAsWritten(usage, old(other.ToStoredImplementation()))
      ensures ToImplementation() == old(other.ToStoredImplementation())
    {
      var converted := Convert(other);
      zyx[0], zyx[1], zyx[2] := converted.zyx[0], converted.zyx[1], converted.zyx[2];
    }

    /**
     * getUnique: builds a copy from the wrapped logical angles, then applies the
     * gimbal flip through the copy's setters. The logical result depends only on
     * the logical angles, not on the usage.
     */
    method GetUnique() returns (r: EulerAnglesZyx)
      requires Valid()
      ensures fresh(r) && fresh(r.zyx) && r.Valid() && r.usage == usage
      ensures r.ToImplementation() == UniqueZyx(ToImplementation())
    {
      r := new EulerAnglesZyx(usage, WrapAngle(Yaw()), WrapAngle(Pitch()), WrapAngle(Roll()));
      if r.Pitch() >= PI / 2.0 {
        if r.Yaw() >= 0.0 {
          r.SetYaw(r.Yaw() - PI);
        } else {
          r.SetYaw(r.Yaw() + PI);
        }
        r.SetPitch(-(r.Pitch() - PI));
        if r.Roll() >= 0.0 {
          r.SetRoll(r.Roll() - PI);
        } else {
          r.SetRoll(r.Roll() + PI);
        }
      } else if r.Pitch() < -PI / 2.0 {
        if r.Yaw() >= 0.0 {
          r.SetYaw(r.Yaw() - PI);
        } else {
          r.SetYaw(r.Yaw() + PI);
        }
        r.SetPitch(-(r.Pitch() + PI));
        if r.Roll() >= 0.0 {
          r.SetRoll(r.Roll() - PI);
        } else {
          r.SetRoll(r.Roll() + PI);
        }
      }
    }

    /** setUnique: replaces this object's payload by that of getUnique(). */
    method SetUnique()
      requires Valid()
      modifies zyx
      ensures ToImplementation() == UniqueZyx(old(ToImplementation()))
      ensures ClosedCanonicalRange(ToImplementation())
      ensures SameRotation(old(ToImplementation()), ToImplementation())
    {
      UniqueZyxSameRotation(ToImplementation());
      var unique := GetUnique();
      zyx[0], zyx[1], zyx[2] := unique.zyx[0], unique.zyx[1], unique.zyx[2];
    }
  }

  /**
   * ConversionTraits<EulerAnglesZyx, EulerAnglesZyx>::convert as written: the
   * source's stored payload goes through the usage-applying constructor, so a
   * PASSIVE rotation comes back with its angles negated.
   */
  method Convert(src: EulerAnglesZyx) returns (r: EulerAnglesZyx)
    requires src.Valid()
    ensures fresh(r) && fresh(r.zyx) && r.Valid() && r.usage == src.usage
    ensures r.ToStoredImplementation() == ConvertedStoredAsWritten(src.usage, src.ToStoredImplementation())
    ensures r.ToImplementation() == src.ToStoredImplementation()
  {
    r := new EulerAnglesZyx.FromImplementation(src.usage, src.ToStoredImplementation());
  }

  /**
   * The same conversion as intended: the source's logical angles go through
   * the usage-applying constructor, so yaw, pitch and roll are preserved.
   */
  method ConvertPreserving(src: EulerAnglesZyx) returns (r: EulerAnglesZyx)
    requires src.Valid()
    ensures fresh(r) && fresh(r.zyx) && r.Valid() && r.usage == src.usage
    ensures r.ToStoredImplementation() == ConvertedStored(src.usage, src.ToStoredImplementation())
    ensures r.ToImplementation() == src.ToImplementation()
  {
    r := new EulerAnglesZyx.FromImplementation(src.usage, src.ToImplementation());
  }

  /**
   * Usage symmetry of construction: the same three scalars given to an ACTIVE
   * and a PASSIVE object read back as the same angles, while the two stored
   * payloads are negations of each other.
   */
  method ConstructBothUsages(yaw: real, pitch: real, roll: real)
    returns (activeAngles: Angles, passiveAngles: Angles, activeStored: Angles, passiveStored: Angles)
    ensures activeAngles == Angles(yaw, pitch, roll) && passiveAngles == Angles(yaw, pitch, roll)
    ensures activeStored == Angles(yaw, pitch, roll) && passiveStored == Negated(activeStored)
  {
    var active := new EulerAnglesZyx(Active, yaw, pitch, roll);
    var passive := new EulerAnglesZyx(Passive, yaw, pitch, roll);
    activeAngles, passiveAngles := active.ToImplementation(), passive.ToImplementation();
    activeStored, passiveStored := active.ToStoredImplementation(), passive.ToStoredImplementation();
  }

  /**
   * getUnique on an ACTIVE and a PASSIVE object holding the same logical
   * angles yields the same logical angles.
   */
  method UniqueOfBothUsages(angles: Angles) returns (activeUnique: Angles, passiveUnique: Angles)
    ensures activeUnique == passiveUnique
    ensures ClosedCanonicalRange(activeUnique) && SameRotation(angles, activeUnique)
  {
    UniqueZyxSameRotation(angles);
    var active := new EulerAnglesZyx.FromImplementation(Active, angles);
    var passive := new EulerAnglesZyx.FromImplementation(Passive, angles);
    var activeResult := active.GetUnique();
    var passiveResult := passive.GetUnique();
    activeUnique, passiveUnique := activeResult.ToImplementation(), passiveResult.ToImplementation();
  }
}
