/** The dice component (components/Dice.tsx): which face a resting die shows, and when a
    change of the `force` prop starts a roll. The physics that brings the die to rest is
    not modelled; its resting orientation is a parameter. */
module Dice {

  datatype Vec3 = Vec3(x: real, y: real, z: real)

  /** A cannon-es quaternion `(x, y, z, w)`. */
  datatype Quat = Quat(x: real, y: real, z: real, w: real)

  function Dot(a: Vec3, b: Vec3): real
  {
    a.x * b.x + a.y * b.y + a.z * b.z
  }

  /** cannon-es `Quaternion.vmult`: the vector rotated by the quaternion, `q v q*`. */
  function Rotate(q: Quat, v: Vec3): Vec3
  {
    var ix := q.w * v.x + q.y * v.z - q.z * v.y;
    var iy := q.w * v.y + q.z * v.x - q.x * v.z;
    var iz := q.w * v.z + q.x * v.y - q.y * v.x;
    var iw := -q.x * v.x - q.y * v.y - q.z * v.z;
    Vec3(ix * q.w + iw * -q.x + iy * -q.z - iz * -q.y,
         iy * q.w + iw * -q.y + iz * -q.x - ix * -q.z,
         iz * q.w + iw * -q.z + ix * -q.y - iy * -q.x)
  }

  const Identity: Quat := Quat(0.0, 0.0, 0.0, 1.0)

  /** The identity orientation leaves every vector where it is. */
  lemma RotateIdentity(v: Vec3)
    ensures Rotate(Identity, v) == v
  {}

  const Up: Vec3 := Vec3(0.0, 1.0, 0.0)

  /** The six face normals in the order `detectDiceFace` visits them. */
  const FaceNormals: seq<Vec3> := [
    Vec3(0.0, 0.0, 1.0), Vec3(1.0, 0.0, 0.0), Vec3(0.0, -1.0, 0.0),
    Vec3(0.0, 1.0, 0.0), Vec3(-1.0, 0.0, 0.0), Vec3(0.0, 0.0, -1.0)]

  /** The face value reported for each normal. */
  const FaceOrder: seq<int> := [5, 1, 4, 3, 2, 6]

  /** The table names every face of the die exactly once. */
  lemma FaceOrderIsPermutation()
    ensures multiset(FaceOrder) == multiset{1, 2, 3, 4, 5, 6}
    ensures forall i, j :: 0 <= i < j < 6 ==> FaceOrder[i] != FaceOrder[j]
  {
    assert FaceOrder == [5, 1, 4, 3, 2, 6];
  }

  /** How far each rotated normal points up. */
  function UpDots(q: Quat): (ds: seq<real>)
    ensures |ds| == 6
    ensures forall i :: 0 <= i < 6 ==> ds[i] == Dot(Rotate(q, FaceNormals[i]), Up)
  {
    seq(6, i requires 0 <= i < 6 => Dot(Rotate(q, FaceNormals[i]), Up))
  }

  /** The first position of a largest element: the `dot > maxDot` scan keeps the earlier
      of two equal values. */
  function FirstArgMax(s: seq<real>): (i: nat)
    requires |s| > 0
    ensures i < |s|
    ensures forall j :: 0 <= j < |s| ==> s[j] <= s[i]
    ensures forall j :: 0 <= j < i ==> s[j] < s[i]
    decreases |s|
  {
    if |s| == 1 then 0
    else
      var k := FirstArgMax(s[..|s| - 1]);
      if s[|s| - 1] > s[k] then |s| - 1 else k
  }

  /** Those two properties pin the position down: it is the only largest element with
      nothing as large before it. */
  lemma FirstArgMaxUnique(s: seq<real>, i: nat)
    requires i < |s|
    requires forall j :: 0 <= j < |s| ==> s[j] <= s[i]
    requires forall j :: 0 <= j < i ==> s[j] < s[i]
    ensures FirstArgMax(s) == i
  {}

  /** The face a die resting in orientation `q` shows: that of the normal pointing most
      nearly up, the first one on a tie. */
  function FaceOf(q: Quat): (f: int)
    ensures f in FaceOrder && 1 <= f <= 6
  {
    FaceOrder[FirstArgMax(UpDots(q))]
  }

  /** Resting in the identity orientation, each normal's upward component is how far it
      points up. */
  lemma IdentityUpDots()
    ensures forall i :: 0 <= i < 6 ==> UpDots(Identity)[i] == FaceNormals[i].y
  {
    forall i | 0 <= i < 6
      ensures UpDots(Identity)[i] == FaceNormals[i].y
    {
      RotateIdentity(FaceNormals[i]);
    }
  }

  /** A die whose up-dots follow the normals' upward components shows the face of the
      fourth normal, 3. */
  lemma UprightShowsThree(q: Quat)
    requires forall i :: 0 <= i < 6 ==> UpDots(q)[i] == FaceNormals[i].y
    ensures FaceOf(q) == 3
  {
    var ds := UpDots(q);
    FirstArgMaxUnique(ds, 3);
  }

  /** Resting in the identity orientation, the normal (0, 1, 0) points up and the die
      shows 3. */
  lemma IdentityShowsThree()
    ensures FaceOf(Identity) == 3
  {
    IdentityUpDots();
    UprightShowsThree(Identity);
  }

  /** `maxDot`, which starts at `-Infinity`. */
  datatype MaxDot = NegInfinity | Finite(value: real)

  predicate Exceeds(d: real, m: MaxDot)
  {
    m.NegInfinity? || d > m.value
  }

  /** `detectDiceFace`: the scan over the six normals. */
  method DetectDiceFace(q: Quat) returns (bestFace: int)
    ensures bestFace == FaceOf(q)
  {
    ghost var ds := UpDots(q);
    bestFace := 1;
    var maxDot := NegInfinity;
    var i := 0;
    while i < 6
      invariant 0 <= i <= 6
      invariant i == 0 ==> maxDot == NegInfinity && bestFace == 1
      invariant i > 0 ==> maxDot == Finite(ds[FirstArgMax(ds[..i])]) && bestFace == FaceOrder[FirstArgMax(ds[..i])]
    {
      var worldNormal := Rotate(q, FaceNormals[i]);
      var dot := Dot(worldNormal, Up);
      assert ds[..i + 1][..i] == ds[..i];
      if Exceeds(dot, maxDot) {
        maxDot := Finite(dot);
        bestFace := FaceOrder[i];
      }
      i := i + 1;
    }
    assert ds[..6] == ds;
  }

  /** The die's roll state: the `force` prop its effect last saw, and `rolling`. */
  class DiceRoller {
    var force: real
    var rolling: bool

    /** Mounting runs the effect once with the initial prop. */
    constructor(initialForce: real)
      ensures force == initialForce && rolling == (initialForce > 0.0)
    {
      force := initialForce;
      rolling := initialForce > 0.0;
    }

    /** The effect on a change of `force`: a roll starts when the new force is positive
        and no roll is under way. Setting the prop to the value it has does not run the
        effect. */
    method OnForce(newForce: real) returns (started: bool)
      modifies this
      ensures force == newForce
      ensures started <==> newForce != old(force) && newForce > 0.0 && !old(rolling)
      ensures rolling == (old(rolling) || started)
    {
      started := false;
      if newForce != force {
        force := newForce;
        if force > 0.0 && !rolling {
          rolling := true;
          started := true;
        }
      }
    }

    /** The two-second timer of a started roll: it reads the face and ends the roll. */
    method OnRollTimeout(q: Quat) returns (face: int)
      requires rolling
      modifies this
      ensures face == FaceOf(q) && 1 <= face <= 6
      ensures !rolling && force == old(force)
    {
      face := DetectDiceFace(q);
      rolling := false;
    }
  }
}
