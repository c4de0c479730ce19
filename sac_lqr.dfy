/**
 * The switching conditions of the SAC + LQR swing-up scripts
 * (examples/realistic/saclqr.py and its copy
 * examples/reinforcement_learning/SAC/test_saclqr.py): the learned policy
 * runs until the wrapped state enters the ellipsoidal region of attraction
 * { x | (x - goal)^T S (x - goal) < rho } of the LQR stabiliser.
 *
 * S and rho are read from files by the scripts; here they are parameters.
 * wrap_angles_top is imported by the scripts from a module that is not part
 * of this model; it is a parameter `wrap` of which nothing is known except
 * that it maps a state to a state.
 */
module SacLqr {
  import opened Linalg
  import opened NumpyArrays

  /** The upright goal, hard-coded inside the membership test. */
  const Goal: Vec4 := [Pi, 0.0, 0.0, 0.0]

  /**
   * check_if_state_in_roa: the pair (rad < 1.0 * rho, rad) where rad is the
   * quadratic form of x - Goal under S. The comparison is strict.
   */
  function CheckIfStateInRoa(S: Mat4, rho: real, x: Vec4): (r: (bool, real))
    ensures r.1 == QuadraticForm(S, Minus(x, Goal))
    ensures r.0 <==> r.1 < rho
  {
    var xdiff := Minus(x, Goal);
    var rad := QuadraticForm(S, xdiff);
    (rad < 1.0 * rho, rad)
  }

  /** condition1: never asks for the first controller. */
  function Condition1(t: real, x: Vec4): (b: bool)
    ensures !b
  {
    false
  }

  /**
   * condition2: the membership flag of the wrapped state; both of the
   * source's return statements return that flag.
   */
  function Condition2(S: Mat4, rho: real, wrap: Vec4 -> Vec4, t: real, x: Vec4): (b: bool)
    ensures b <==> QuadraticForm(S, Minus(wrap(x), Goal)) < rho
  {
    var y := wrap(x);
    var (flag, rad) := CheckIfStateInRoa(S, rho, y);
    if flag then flag else flag
  }

  /** The goal itself has radius zero, so it is inside exactly when rho is positive. */
  lemma GoalStateRadius(S: Mat4, rho: real)
    ensures CheckIfStateInRoa(S, rho, Goal) == (rho > 0.0, 0.0)
  {
  }

  /** With S the identity, rad is the squared Euclidean distance from the goal. */
  lemma IdentityRadiusIsSquaredDistance(rho: real, x: Vec4)
    ensures CheckIfStateInRoa(Identity(4), rho, x).1
         == (x[0] - Pi) * (x[0] - Pi) + x[1] * x[1] + x[2] * x[2] + x[3] * x[3]
  {
    var d := Minus(x, Goal);
    QuadraticFormOfIdentity(d);
    assert SumOfSquares(d, 4) == 0.0;
    assert SumOfSquares(d, 3) == d[3] * d[3];
    assert SumOfSquares(d, 2) == d[2] * d[2] + d[3] * d[3];
  }

  /**
   * A state exactly on the boundary is outside: with S the identity and
   * rho = 1, displacing the first angle by 1 gives rad == rho and the flag false.
   */
  lemma BoundaryStateIsOutside()
    ensures CheckIfStateInRoa(Identity(4), 1.0, [Pi + 1.0, 0.0, 0.0, 0.0]) == (false, 1.0)
  {
    IdentityRadiusIsSquaredDistance(1.0, [Pi + 1.0, 0.0, 0.0, 0.0]);
  }

  /** For every S and rho, a state with rad == rho is reported outside, and rad is returned as computed. */
  lemma RadiusOnBoundary(S: Mat4, rho: real, x: Vec4)
    requires QuadraticForm(S, Minus(x, Goal)) == rho
    ensures CheckIfStateInRoa(S, rho, x) == (false, rho)
  {
  }

  /** A positive semi-definite diagonal S never yields a negative radius. */
  lemma DiagonalRadiusNonnegative(S: Mat4, rho: real, x: Vec4)
    requires IsDiagonal(S, 4)
    requires forall k :: 0 <= k < 4 ==> S[k][k] >= 0.0
    ensures CheckIfStateInRoa(S, rho, x).1 >= 0.0
    ensures rho <= 0.0 ==> !CheckIfStateInRoa(S, rho, x).0
  {
    var d := Minus(x, Goal);
    QuadraticFormOfDiagonal(S, d);
    DiagonalSumNonnegative(S, d, 0);
  }

  /** condition2 does not look at the time. */
  lemma Condition2IgnoresTime(S: Mat4, rho: real, wrap: Vec4 -> Vec4, t1: real, t2: real, x: Vec4)
    ensures Condition2(S, rho, wrap, t1, x) == Condition2(S, rho, wrap, t2, x)
  {
  }

  /** condition2 is the membership test of the wrapped state, flag for flag. */
  lemma Condition2IsWrappedMembership(S: Mat4, rho: real, wrap: Vec4 -> Vec4, t: real, x: Vec4)
    ensures Condition2(S, rho, wrap, t, x) == CheckIfStateInRoa(S, rho, wrap(x)).0
  {
  }

  /**
   * condition2 tests the wrapped state, not the raw one: for a wrapping that
   * moves the goal onto the boundary, the raw goal is inside the region but
   * condition2 reports false.
   */
  lemma Condition2DiffersFromRawTest()
    ensures exists wrap: Vec4 -> Vec4 ::
      !Condition2(Identity(4), 1.0, wrap, 0.0, Goal) && CheckIfStateInRoa(Identity(4), 1.0, Goal).0
  {
    var far: Vec4 := [Pi + 1.0, 0.0, 0.0, 0.0];
    var wrap: Vec4 -> Vec4 := (x: Vec4) => far;
    BoundaryStateIsOutside();
    GoalStateRadius(Identity(4), 1.0);
    assert !Condition2(Identity(4), 1.0, wrap, 0.0, Goal);
  }
}
