# EulerAnglesZyx: usage signs and canonicalisation

A Dafny model of the Z-Y'-X'' (yaw, pitch, roll) Euler-angle rotation class
`EulerAnglesZyx` of kindr. An object keeps a 3-vector payload `zyx_` =
[yaw; pitch; roll] and a usage tag. For an ACTIVE rotation the payload holds
the angles the caller reads and writes. For a PASSIVE rotation it holds their
negation. Every constructor, getter, setter and `toImplementation` applies or
undoes that negation. `getUnique` maps a triple to a canonical representative
of the same rotation: each angle is wrapped into [-pi, pi), then a pitch
outside [-pi/2, pi/2) triggers the ZYX gimbal flip.

Files:

- `common.dfy` (module `Common`): pi as an abstract positive constant,
  `floatingPointModulo` for a positive modulus, the angle wrap used by
  `getUnique`, and the relation "two angles differ by whole turns".
- `euler_zyx_spec.dfy` (module `EulerZyxSpec`): the value-level meaning. It
  holds the usage transform, `getUnique` on logical angles (as written and
  corrected), the relation "same rotation" on triples, and the payload
  produced by the same-representation conversion.
- `euler_angles_zyx.dfy` (module `EigenImpl`): the class, with a 3-element
  array as its payload. Getters are functions; setters, `setIdentity`,
  `setUnique` and the assignment are methods that update the array in place.
  It also holds the same-representation conversion.

Angles are exact reals. `M_PI` is the constant `Common.PI`, of which the
proofs use only that it is positive. `kindr/common/common.hpp` is not part
of this model. `Common.FloatingPointModulo` is defined as
x - m * floor(x / m). Its contract is what `getUnique` relies on: a result in
[0, m) that differs from x by a whole multiple of m.

"Same rotation" is stated without trigonometry. Two triples describe the
same rotation when every angle agrees up to whole turns. They also do when
they are related by the ZYX identity (yaw + pi, pi - pitch, roll + pi), again
up to whole turns.

Where the code and its documentation disagree, the model follows the code:

- The comment at line 103 calls the vector `[roll; pitch; yaw]`, but every
  accessor uses index 0 as yaw. The model uses [yaw; pitch; roll].
- The `getUnique` comment (line 319) promises pitch in [-pi/2, pi/2). The
  code yields [-pi/2, pi/2]; see Findings.
- `setIdentity` (line 315) calls `Implementation::setZero()`. `Implementation`
  is the Eigen vector type, and the class does not derive from it, so this
  line does not compile once instantiated. The model follows its evident
  intent: all stored angles become zero.

## Model

| member | source | states |
|---|---|---|
| Common.FloatingPointModulo | rotations/include/kindr/rotations/eigen/EulerAnglesZyx.hpp:324-326 | for a positive modulus m, the result lies in [0, m) and differs from x by a whole multiple of m |
| Common.WrapAngle | rotations/include/kindr/rotations/eigen/EulerAnglesZyx.hpp:324-326 | floatingPointModulo(a + pi, 2 pi) - pi lies in [-pi, pi) and differs from a by whole turns |
| Common.WrapAngleFixesPrincipal | rotations/include/kindr/rotations/eigen/EulerAnglesZyx.hpp:324-326 | wrapping an angle already in [-pi, pi) returns it unchanged |
| Common.SameAngleInPrincipalRange | rotations/include/kindr/rotations/eigen/EulerAnglesZyx.hpp:326 | two angles in [-pi, pi) that differ by whole turns are equal, so the wrapped range holds one representative per direction |
| EulerZyxSpec.UsageTransformInvolution | rotations/include/kindr/rotations/eigen/EulerAnglesZyx.hpp:105-111 | the usage transform is its own inverse, so storing through it and reading back through it returns the original angles |
| EulerZyxSpec.UsageSymmetry | rotations/include/kindr/rotations/eigen/EulerAnglesZyx.hpp:94-100 | for the same scalars the ACTIVE payload is the negation of the PASSIVE payload, and both present the same angles |
| EulerZyxSpec.Wrapped | rotations/include/kindr/rotations/eigen/EulerAnglesZyx.hpp:324-326 | the three wrapped angles lie in [-pi, pi) and each differs from its input by whole turns |
| EulerZyxSpec.HalfTurnTowardZero | rotations/include/kindr/rotations/eigen/EulerAnglesZyx.hpp:329-333 | subtracting pi from a non-negative angle and adding pi to a negative one keeps [-pi, pi) and swaps the sign class |
| EulerZyxSpec.UniqueZyx | rotations/include/kindr/rotations/eigen/EulerAnglesZyx.hpp:323-360 | getUnique as written: yaw and roll in [-pi, pi), pitch in the closed range [-pi/2, pi/2] |
| EulerZyxSpec.SameRotationSymmetric | rotations/include/kindr/rotations/eigen/EulerAnglesZyx.hpp:319-320 | "describes the same rotation" is symmetric, so getUnique can be used to compare rotations either way round |
| EulerZyxSpec.SameRotationTransitive | rotations/include/kindr/rotations/eigen/EulerAnglesZyx.hpp:319-320 | "describes the same rotation" is transitive |
| EulerZyxSpec.CanonicalRepresentativeUnique | rotations/include/kindr/rotations/eigen/EulerAnglesZyx.hpp:319 | two triples in the closed range describing the same rotation are equal when the pitch is strictly between -pi/2 and pi/2 |
| EulerZyxSpec.UniqueZyxPitchStrict | rotations/include/kindr/rotations/eigen/EulerAnglesZyx.hpp:327-358 | unless the wrapped pitch is exactly -pi/2 or pi/2, the output pitch lies strictly inside (-pi/2, pi/2), for both versions |
| EulerZyxSpec.UniqueZyxRespectsSameRotation | rotations/include/kindr/rotations/eigen/EulerAnglesZyx.hpp:319-360 | two triples describing the same rotation get the same getUnique result, unless the first one's wrapped pitch is -pi/2 or pi/2 |
| EulerZyxSpec.UniqueZyxNotUniqueAtGimbal | rotations/include/kindr/rotations/eigen/EulerAnglesZyx.hpp:319-343 | (0, -pi/2, 0) and (-pi, -pi/2, -pi) describe the same rotation, both lie in the documented range and getUnique keeps both |
| EulerZyxSpec.FlipSameRotation | rotations/include/kindr/rotations/eigen/EulerAnglesZyx.hpp:327-358 | both flip branches move yaw and roll by a half turn and reflect pitch to pi - pitch, up to whole turns |
| EulerZyxSpec.UniqueZyxSameRotation | rotations/include/kindr/rotations/eigen/EulerAnglesZyx.hpp:323-360 | the canonical triple describes the same rotation as the input |
| EulerZyxSpec.WrappedFixesPrincipal | rotations/include/kindr/rotations/eigen/EulerAnglesZyx.hpp:324-326 | wrapping a triple already in [-pi, pi)^3 changes nothing |
| EulerZyxSpec.UniqueZyxFixedPoints | rotations/include/kindr/rotations/eigen/EulerAnglesZyx.hpp:319-360 | getUnique leaves a triple unchanged exactly when it lies in the documented range [-pi,pi) x [-pi/2,pi/2) x [-pi,pi) |
| EulerZyxSpec.UniqueZyxIdempotent | rotations/include/kindr/rotations/eigen/EulerAnglesZyx.hpp:323-368 | getUnique(getUnique(v)) == getUnique(v) whenever the output pitch is below pi/2 |
| EulerZyxSpec.UniqueZyxAtGimbalBoundary | rotations/include/kindr/rotations/eigen/EulerAnglesZyx.hpp:319-342 | a wrapped pitch of exactly pi/2 comes out as pi/2, outside the documented range, and a second getUnique changes the result again |
| EulerZyxSpec.UniqueZyxNotIdempotentExample | rotations/include/kindr/rotations/eigen/EulerAnglesZyx.hpp:327-342 | (0, pi/2, 0) maps to (-pi, pi/2, -pi), which maps back to (0, pi/2, 0) |
| EulerZyxSpec.UniqueZyxCorrected | rotations/include/kindr/rotations/eigen/EulerAnglesZyx.hpp:327 | getUnique with a strict first flip test: yaw and roll in [-pi, pi), pitch in [-pi/2, pi/2] |
| EulerZyxSpec.UniqueZyxCorrectedSameRotation | rotations/include/kindr/rotations/eigen/EulerAnglesZyx.hpp:327-358 | the corrected canonical triple describes the same rotation as the input |
| EulerZyxSpec.UniqueZyxCorrectedFixedPoints | rotations/include/kindr/rotations/eigen/EulerAnglesZyx.hpp:319-360 | the corrected version leaves a triple unchanged exactly when it lies in the closed range |
| EulerZyxSpec.UniqueZyxCorrectedIdempotent | rotations/include/kindr/rotations/eigen/EulerAnglesZyx.hpp:323-368 | the corrected version is idempotent on every input |
| EulerZyxSpec.UniqueZyxCorrectedRespectsSameRotation | rotations/include/kindr/rotations/eigen/EulerAnglesZyx.hpp:319-360 | the corrected version gives one result per rotation, unless the first triple's wrapped pitch is -pi/2 or pi/2 |
| EulerZyxSpec.UniqueZyxCorrectedNotUniqueAtGimbal | rotations/include/kindr/rotations/eigen/EulerAnglesZyx.hpp:327 | (0, pi/2, 0) and (-pi, pi/2, -pi) describe the same rotation and the corrected version keeps both |
| EulerZyxSpec.UniqueZyxCorrectedAgrees | rotations/include/kindr/rotations/eigen/EulerAnglesZyx.hpp:327 | the corrected and the written versions differ exactly when the wrapped pitch is pi/2 |
| EulerZyxSpec.ConvertedStoredAsWritten | rotations/include/kindr/rotations/eigen/EulerAnglesZyx.hpp:482-488 | the converted payload, read back through the usage transform, is the source's stored payload |
| EulerZyxSpec.ConvertAsWrittenAngles | rotations/include/kindr/rotations/eigen/EulerAnglesZyx.hpp:482-488 | as written, conversion keeps the angles for ACTIVE and negates them for PASSIVE |
| EulerZyxSpec.ConvertAsWrittenPassiveExample | rotations/include/kindr/rotations/eigen/EulerAnglesZyx.hpp:486 | a PASSIVE rotation with yaw 1 converts to one with yaw -1 |
| EulerZyxSpec.ConvertedStored | rotations/include/kindr/rotations/eigen/EulerAnglesZyx.hpp:482-488 | the intended conversion copies the stored payload unchanged |
| EulerZyxSpec.ConvertPreservesAngles | rotations/include/kindr/rotations/eigen/EulerAnglesZyx.hpp:482-488 | the intended conversion preserves yaw, pitch and roll for both usages |
| EigenImpl.EulerAnglesZyx.Identity | rotations/include/kindr/rotations/eigen/EulerAnglesZyx.hpp:85-87 | the default object stores zero angles and presents zero angles, for either usage |
| EigenImpl.EulerAnglesZyx.constructor | rotations/include/kindr/rotations/eigen/EulerAnglesZyx.hpp:94-100 | stores the arguments for ACTIVE and their negation for PASSIVE; yaw(), pitch(), roll() return the arguments |
| EigenImpl.EulerAnglesZyx.FromImplementation | rotations/include/kindr/rotations/eigen/EulerAnglesZyx.hpp:105-111 | stores the vector through the usage transform; toImplementation() returns the vector |
| EigenImpl.EulerAnglesZyx.FromRotation | rotations/include/kindr/rotations/eigen/EulerAnglesZyx.hpp:116-119 | from another ZYX rotation through the template constructor: takes the converted payload, so its angles are the other's stored payload. C++ picks this template over the implicit copy constructor only across scalar types (float and double); a same-type copy copies the payload unchanged |
| EigenImpl.EulerAnglesZyx.ToStoredImplementation | rotations/include/kindr/rotations/eigen/EulerAnglesZyx.hpp:178-180 | the raw payload [zyx_(0), zyx_(1), zyx_(2)], without the usage transform |
| EigenImpl.EulerAnglesZyx.ToImplementation | rotations/include/kindr/rotations/eigen/EulerAnglesZyx.hpp:160-166 | equals the stored payload for ACTIVE and its negation for PASSIVE |
| EigenImpl.EulerAnglesZyx.Yaw | rotations/include/kindr/rotations/eigen/EulerAnglesZyx.hpp:185-191 | the yaw component of toImplementation() |
| EigenImpl.EulerAnglesZyx.Pitch | rotations/include/kindr/rotations/eigen/EulerAnglesZyx.hpp:196-202 | the pitch component of toImplementation() |
| EigenImpl.EulerAnglesZyx.Roll | rotations/include/kindr/rotations/eigen/EulerAnglesZyx.hpp:207-213 | the roll component of toImplementation() |
| EigenImpl.EulerAnglesZyx.Z | rotations/include/kindr/rotations/eigen/EulerAnglesZyx.hpp:248-254 | z() always equals yaw() |
| EigenImpl.EulerAnglesZyx.Y | rotations/include/kindr/rotations/eigen/EulerAnglesZyx.hpp:259-265 | y() always equals pitch() |
| EigenImpl.EulerAnglesZyx.X | rotations/include/kindr/rotations/eigen/EulerAnglesZyx.hpp:270-276 | x() always equals roll() |
| EigenImpl.EulerAnglesZyx.SetYaw | rotations/include/kindr/rotations/eigen/EulerAnglesZyx.hpp:217-223 | afterwards yaw() is the value set; pitch and roll, stored and logical, are unchanged |
| EigenImpl.EulerAnglesZyx.SetPitch | rotations/include/kindr/rotations/eigen/EulerAnglesZyx.hpp:227-233 | afterwards pitch() is the value set; yaw and roll are unchanged |
| EigenImpl.EulerAnglesZyx.SetRoll | rotations/include/kindr/rotations/eigen/EulerAnglesZyx.hpp:237-243 | afterwards roll() is the value set; yaw and pitch are unchanged |
| EigenImpl.EulerAnglesZyx.SetZ | rotations/include/kindr/rotations/eigen/EulerAnglesZyx.hpp:281-287 | afterwards z() is the value set; y() and x() are unchanged |
| EigenImpl.EulerAnglesZyx.SetY | rotations/include/kindr/rotations/eigen/EulerAnglesZyx.hpp:292-298 | afterwards y() is the value set; z() and x() are unchanged |
| EigenImpl.EulerAnglesZyx.SetX | rotations/include/kindr/rotations/eigen/EulerAnglesZyx.hpp:303-309 | afterwards x() is the value set; z() and y() are unchanged |
| EigenImpl.EulerAnglesZyx.SetIdentity | rotations/include/kindr/rotations/eigen/EulerAnglesZyx.hpp:314-317 | afterwards the stored and the logical angles are all zero |
| EigenImpl.EulerAnglesZyx.Assign | rotations/include/kindr/rotations/eigen/EulerAnglesZyx.hpp:125-140 | the template `operator=` and `operator()` from a ZYX rotation of the same usage store the converted payload, so the angles become the other's stored payload. `operator()` always takes this path; `operator=` takes it only across scalar types, since a same-type `b = a` is the implicit copy assignment |
| EigenImpl.EulerAnglesZyx.GetUnique | rotations/include/kindr/rotations/eigen/EulerAnglesZyx.hpp:323-360 | returns a new object of the same usage whose angles are UniqueZyx of this object's angles, whatever the usage |
| EigenImpl.EulerAnglesZyx.SetUnique | rotations/include/kindr/rotations/eigen/EulerAnglesZyx.hpp:365-368 | the new angles are UniqueZyx of the old ones, lie in the closed canonical range and describe the same rotation |
| EigenImpl.Convert | rotations/include/kindr/rotations/eigen/EulerAnglesZyx.hpp:482-488 | as written: a fresh object of the same usage whose angles are the source's stored payload |
| EigenImpl.ConvertPreserving | rotations/include/kindr/rotations/eigen/EulerAnglesZyx.hpp:482-488 | as intended: a fresh object of the same usage with the source's angles and stored payload |
| EigenImpl.ConstructBothUsages | rotations/include/kindr/rotations/eigen/EulerAnglesZyx.hpp:94-100 | ACTIVE and PASSIVE objects built from the same scalars present those scalars; their payloads are negations of each other |
| EigenImpl.UniqueOfBothUsages | rotations/include/kindr/rotations/eigen/EulerAnglesZyx.hpp:323-326 | getUnique gives the same angles for ACTIVE and PASSIVE objects with the same angles, in the closed range and the same rotation |

## Findings

The class follows the code as written (`GetUnique`, `SetUnique`, `Convert`,
`FromRotation`, `Assign`). The corrected definitions stand beside it;
`ConvertPreserving` is the class-level corrected conversion.

| source | as written | input that shows it | evidently intended | confidence | as-written member | corrected member |
|---|---|---|---|---|---|---|
| rotations/include/kindr/rotations/eigen/EulerAnglesZyx.hpp:327 | the test `pitch() >= M_PI/2` also flips a wrapped pitch of exactly pi/2, giving pi - pi/2 = pi/2 and moving yaw and roll by pi | yaw 0, pitch pi/2, roll 0 gives (-pi, pi/2, -pi); a second getUnique gives (0, pi/2, 0) | getUnique idempotent. No triple with pitch in [-pi/2, pi/2) describes a rotation of pitch pi/2, so the reachable range is the closed one and the first test should be strict | not executed | EulerZyxSpec.UniqueZyxAtGimbalBoundary | EulerZyxSpec.UniqueZyxCorrectedIdempotent |
| rotations/include/kindr/rotations/eigen/EulerAnglesZyx.hpp:486 | the stored payload is passed to the constructor at lines 105-111, which applies the usage transform again | a PASSIVE rotation with yaw 1, pitch 0, roll 0 converts to yaw -1. This is reached through `ConversionTraits::convert` itself, through `operator()` (lines 136-140) for any ZYX argument, and through the template constructor and `operator=` (lines 116-129) across scalar types; a same-type copy or assignment uses the implicit copy and negates nothing | conversion keeps yaw, pitch and roll for both usages | not executed | EulerZyxSpec.ConvertAsWrittenAngles | EulerZyxSpec.ConvertPreservesAngles |

## Left out

- Conversions from AngleAxis, RotationVector, RotationQuaternion, RotationMatrix and EulerAnglesXyz (lines 443-480): they call trigonometric functions in `RotationEigenFunctions.hpp`, which is not part of this model.
- Constructor, assignment and parenthesis operator from those other representations (lines 116-140): they only dispatch to the conversions above. Only the ZYX-to-ZYX case is modelled.
- `inverted()` (lines 145-155): it calls `getInverseRpy`, which is not part of this model and is trigonometric.
- Composition through `MultiplicationTraits` (lines 493-521) and `rotate` (lines 528-535): quaternion and matrix products of the linear-algebra library.
- Stream output (lines 385-388), typedefs and aliases (lines 391-411), `get_matrix3X` and `get_other_usage` (lines 418-437), and the operator using-declarations (lines 374, 380): no behaviour beyond types.
- Floating point: angles are exact reals, float and double are not distinguished, `cast<DestPrimType_>` is the identity, and the rounding of `M_PI` is not modelled.
- Common.FloatingPointModulo: only a positive modulus is modelled, and the floating-point boundary corrections of the real `floatingPointModulo` are not, since `kindr/common/common.hpp` is not part of this model.
- EigenImpl.EulerAnglesZyx.ToStoredImplementation: returns a copy of the payload. The overload returning a mutable reference (lines 171-173), through which a caller can write the payload directly, is not modelled.
- The `*this` references returned by `setIdentity`, `setUnique` and the assignment operators, used for chaining, are not modelled.
- The implicit copy constructor and copy assignment of the C++ class are not modelled; every object owns a freshly allocated payload array.
- EulerZyxSpec.UniqueZyx: the result is not unique at gimbal lock. When the wrapped pitch is -pi/2 or pi/2, one rotation has infinitely many yaw and roll pairs, and getUnique (as written or corrected) does not pick one; `UniqueZyxNotUniqueAtGimbal` and `UniqueZyxCorrectedNotUniqueAtGimbal` exhibit it. Uniqueness is proved everywhere else.
- Physical equality of rotations is stated through whole-turn periodicity and the ZYX gimbal identity, without rotation matrices.
