/**
 * The camera controller's discrete parts: the frame index that the
 * accumulation kernel reads, and which movement keys take effect.
 *
 * The front and right directions come from yaw and pitch through
 * trigonometry; here they are inputs, and speed * delta_time is one real
 * `step`.
 */
module Camera {
  import opened Catalog

  /** The frame index is a uint32_t. */
  newtype u32 = x: int | 0 <= x < 0x1_0000_0000

  /** The index is reset before the increment when it is strictly above this value. */
  const FrameWrapThreshold: int := 1000000
  /** Number of distinct values the index takes after the first update: 1 ..= FrameWrapThreshold + 1. */
  const FramePeriod: int := FrameWrapThreshold + 1

  /** The frame index after one camera update; the increment never overflows. */
  function NextFrameIndex(f: u32): (r: u32)
    ensures 1 <= r as int <= FramePeriod
    ensures f as int <= FrameWrapThreshold ==> r as int == f as int + 1
    ensures f as int > FrameWrapThreshold ==> r == 1
  {
    (if f as int > FrameWrapThreshold then 0 else f) + 1
  }

  /** The frame index after n camera updates. */
  function FrameIndexAfter(f: u32, n: nat): u32
    decreases n
  {
    if n == 0 then f else FrameIndexAfter(NextFrameIndex(f), n - 1)
  }

  /**
   * From any index not above FramePeriod (in particular the initial 0), n >= 1
   * updates give (f - 1 + n) mod FramePeriod + 1: the index counts up to
   * 1000001 and then continues at 1, so it cycles with period 1000001.
   */
  lemma {:induction false} FrameIndexCycle(f: u32, n: nat)
    requires f as int <= FramePeriod && n >= 1
    ensures FrameIndexAfter(f, n) as int == (f as int - 1 + n) % FramePeriod + 1
    decreases n
  {
    var g := NextFrameIndex(f);
    assert FrameIndexAfter(f, n) == FrameIndexAfter(g, n - 1);
    if n == 1 {
      if f as int == FramePeriod {
        assert (f as int - 1 + n) % FramePeriod == 0;
      } else {
        assert (f as int - 1 + n) % FramePeriod == f as int;
      }
    } else {
      FrameIndexCycle(g, n - 1);
      var x := n - 1;
      if f as int == FramePeriod {
        assert g as int - 1 + (n - 1) == x;
        assert (x + FramePeriod) % FramePeriod == x % FramePeriod;
      } else {
        assert g as int - 1 + (n - 1) == f as int - 1 + n;
      }
    }
  }

  /** The index sequence around the threshold: 999999, 1000000, 1000001, 1. */
  lemma FrameIndexBoundary()
    ensures NextFrameIndex(999999) == 1000000
    ensures NextFrameIndex(1000000) == 1000001
    ensures NextFrameIndex(1000001) == 1
    ensures FrameIndexAfter(1, FramePeriod) == 1
  {
    FrameIndexCycle(1, FramePeriod);
  }

  /** The state of the W, A, S and D keys in this frame. */
  datatype Keys = Keys(w: bool, a: bool, s: bool, d: bool)

  /** Movement along one axis: with the direction, against it, or none. */
  datatype Axis = Along | Against | Still

  /** W wins over S. */
  function ForwardAxis(k: Keys): Axis {
    if k.w then Along else if k.s then Against else Still
  }

  /** A wins over D. */
  function SideAxis(k: Keys): Axis {
    if k.a then Along else if k.d then Against else Still
  }

  function Add(u: Vec3, v: Vec3): Vec3 {
    Vec3(u.x + v.x, u.y + v.y, u.z + v.z)
  }

  function Sub(u: Vec3, v: Vec3): Vec3 {
    Vec3(u.x - v.x, u.y - v.y, u.z - v.z)
  }

  function Scale(v: Vec3, c: real): Vec3 {
    Vec3(v.x * c, v.y * c, v.z * c)
  }

  /** The displacement one axis contributes. */
  function Displacement(axis: Axis, dir: Vec3, step: real): Vec3 {
    match axis
    case Along => Scale(dir, step)
    case Against => Scale(dir, -step)
    case Still => Zero3
  }

  /** The total displacement of one camera update. */
  function Movement(k: Keys, front: Vec3, right: Vec3, step: real): Vec3 {
    Add(Displacement(ForwardAxis(k), front, step), Displacement(SideAxis(k), right, step))
  }

  /**
   * W overrides S and A overrides D, and the two axes are chosen
   * independently: with W and S both held the camera moves by front * step,
   * not by zero.
   */
  lemma KeyPrecedence(k: Keys, front: Vec3, right: Vec3, step: real)
    ensures k.w ==> Movement(k, front, right, step) == Movement(k.(s := !k.s), front, right, step)
    ensures k.a ==> Movement(k, front, right, step) == Movement(k.(d := !k.d), front, right, step)
    ensures ForwardAxis(k) == ForwardAxis(k.(a := !k.a)) == ForwardAxis(k.(d := !k.d))
    ensures SideAxis(k) == SideAxis(k.(w := !k.w)) == SideAxis(k.(s := !k.s))
    ensures Movement(Keys(true, false, true, false), front, right, step) == Scale(front, step)
  {
  }
}
